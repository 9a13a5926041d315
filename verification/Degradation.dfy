/** Layered content reduction (loopal-context/src/degradation.rs) and the
    budget it works against (loopal-context/src/budget.rs). */
module Degradation {
  import opened Prelude
  import opened Messages
  import opened Ingestion

  // ---- budget -----------------------------------------------------------

  datatype ContextBudget = ContextBudget(contextWindow: nat, systemTokens: nat, toolTokens: nat,
                                         outputReserve: nat, safetyMargin: nat, messageBudget: nat)
  {
    predicate NeedsEmergency(tokens: nat) {
      tokens > messageBudget * 19 / 20
    }

    /** The level below which nothing more is dropped. */
    function Limit(): nat {
      messageBudget * 90 / 100
    }
  }

  /** The message budget and the overheads fill the window exactly, unless the
      overheads alone exceed it. */
  function Calculate(contextWindow: nat, systemTokens: nat, toolTokens: nat, maxOutputTokens: nat): (b: ContextBudget)
    ensures var overhead := systemTokens + toolTokens + Min(maxOutputTokens, 16_384) + contextWindow / 20;
            b == ContextBudget(contextWindow, systemTokens, toolTokens, Min(maxOutputTokens, 16_384),
                               contextWindow / 20, if overhead <= contextWindow then contextWindow - overhead else 0)
  {
    var outputReserve := Min(maxOutputTokens, 16_384);
    var safetyMargin := contextWindow / 20;
    var messageBudget :=
      SaturatingSub(SaturatingSub(SaturatingSub(SaturatingSub(contextWindow, systemTokens), toolTokens),
                                  outputReserve), safetyMargin);
    ContextBudget(contextWindow, systemTokens, toolTokens, outputReserve, safetyMargin, messageBudget)
  }

  // ---- layer 0 ----------------------------------------------------------

  predicate NotThinking(b: Block) {
    !b.Thinking?
  }

  predicate NotImage(b: Block) {
    !b.Image?
  }

  /** Thinking is dropped unless this is the last assistant message, images
      unless this is one of the last two messages. */
  function StripOld(m: Message, lastAssistant: bool, recent: bool): Message {
    var m1 := if m.role == Assistant && !lastAssistant then m.(content := Filter(NotThinking, m.content)) else m;
    if recent then m1 else m1.(content := Filter(NotImage, m1.content))
  }

  function StripAt(ms: seq<Message>, i: nat): Message
    requires i < |ms|
  {
    StripOld(OldCondensed(ms, i), i == LastAssistant(ms), i >= SaturatingSub(|ms|, 2))
  }

  function StripEach(ms: seq<Message>): seq<Message> {
    seq(|ms|, i requires 0 <= i < |ms| => StripAt(ms, i))
  }

  function EphemeralStripped(ms: seq<Message>): seq<Message> {
    Filter(SystemOrNonEmpty, StripEach(ms))
  }

  lemma {:induction false} SameRolesSameLast(a: seq<Message>, b: seq<Message>)
    requires |a| == |b| && forall i :: 0 <= i < |a| ==> a[i].role == b[i].role
    ensures LastAssistant(a) == LastAssistant(b)
  {
    if a != [] {
      SameRolesSameLast(a[..|a| - 1], b[..|b| - 1]);
    }
  }

  method StripEphemeralBlocks(messages: seq<Message>) returns (out: seq<Message>)
    ensures out == EphemeralStripped(messages)
    ensures out == Filter((m: Message) => m.role == System || m.content != [],
                          seq(|messages|, i requires 0 <= i < |messages| => LeftAt(messages, i)))
  {
    StrippedExactly(messages);
    var ms := CondenseOldServerBlocks(messages);
    SameRolesSameLast(ms, messages);
    var lastAssistant := LastAssistant(ms);
    var preserveImagesFrom := SaturatingSub(|ms|, 2);
    for i := 0 to |ms|
      invariant |ms| == |messages|
      invariant forall j :: i <= j < |ms| ==> ms[j] == OldCondensed(messages, j)
      invariant forall j :: 0 <= j < i ==> ms[j] == StripAt(messages, j)
    {
      var m := ms[i];
      if m.role == Assistant && i != lastAssistant {
        m := m.(content := Filter(NotThinking, m.content));
      }
      if i < preserveImagesFrom {
        m := m.(content := Filter(NotImage, m.content));
      }
      ms := ms[i := m];
    }
    assert ms == StripEach(messages);
    out := Filter(SystemOrNonEmpty, ms);
  }

  // ---- layers 1 and 3 ---------------------------------------------------

  function ShortenBlock(count: Counter, threshold: nat, b: Block): Block {
    if b.ToolResult? && count(b) > threshold then SafeTruncated(b, LAYER1) else b
  }

  function Shortener(count: Counter, threshold: nat): Block -> Block {
    (b: Block) => ShortenBlock(count, threshold, b)
  }

  function EmergencyBlock(b: Block): Block {
    SafeTruncated(b, EMERGENCY)
  }

  /** `f` on the blocks of user messages that are not among the last four. */
  function OldUserBlocks(f: Block -> Block, ms: seq<Message>): seq<Message> {
    seq(|ms|, i requires 0 <= i < |ms| =>
      if i < SaturatingSub(|ms|, 4) && ms[i].role == User then ms[i].(content := Map(f, ms[i].content)) else ms[i])
  }

  method RewriteOldUserBlocks(f: Block -> Block, messages: seq<Message>) returns (out: seq<Message>)
    ensures out == OldUserBlocks(f, messages)
  {
    out := messages;
    var recentBoundary := SaturatingSub(|messages|, 4);
    for i := 0 to |messages|
      invariant |out| == |messages|
      invariant forall j :: i <= j < |out| ==> out[j] == messages[j]
      invariant forall j :: 0 <= j < i ==> out[j] == OldUserBlocks(f, messages)[j]
    {
      if i >= recentBoundary {
        break;
      }
      if out[i].role != User {
        continue;
      }
      var content := out[i].content;
      for k := 0 to |content|
        invariant |content| == |messages[i].content|
        invariant forall j :: k <= j < |content| ==> content[j] == messages[i].content[j]
        invariant forall j :: 0 <= j < k ==> content[j] == f(messages[i].content[j])
      {
        content := content[k := f(content[k])];
      }
      assert content == Map(f, messages[i].content);
      out := out[i := out[i].(content := content)];
    }
  }

  // ---- the pipeline -----------------------------------------------------

  function Layer1(count: Counter, budget: ContextBudget, ms: seq<Message>): seq<Message> {
    if TotalTokens(count, ms) > budget.messageBudget * 60 / 100
    then OldUserBlocks(Shortener(count, budget.messageBudget / 8), ms) else ms
  }

  function Layer3(count: Counter, budget: ContextBudget, ms: seq<Message>): seq<Message> {
    if TotalTokens(count, ms) > budget.Limit() then OldUserBlocks(EmergencyBlock, ms) else ms
  }

  function Degraded(count: Counter, budget: ContextBudget, ms: seq<Message>): seq<Message> {
    Layer3(count, budget, Layer1(count, budget, EphemeralStripped(ms)))
  }

  method RunSyncDegradation(count: Counter, messages: seq<Message>, budget: ContextBudget) returns (out: seq<Message>)
    ensures out == Degraded(count, budget, messages)
  {
    out := StripEphemeralBlocks(messages);
    var tokens := TotalTokens(count, out);
    if tokens > budget.messageBudget * 60 / 100 {
      out := RewriteOldUserBlocks(Shortener(count, budget.messageBudget / 8), out);
    }
    tokens := TotalTokens(count, out);
    if tokens > budget.messageBudget * 90 / 100 {
      out := RewriteOldUserBlocks(EmergencyBlock, out);
    }
  }

  // ---- what degradation leaves ------------------------------------------

  /** An assistant message that is not the last one. */
  predicate IsSuperseded(ms: seq<Message>, i: nat)
    requires i < |ms|
  {
    ms[i].role == Assistant && exists j :: i < j < |ms| && ms[j].role == Assistant
  }

  /** What is left of a block: thinking and server blocks only of messages that
      are not superseded, images only of recent ones; notes for the calls. */
  function LeftOf(superseded: bool, stale: bool): Block -> seq<Block> {
    (b: Block) =>
      if b.Thinking? && superseded then []
      else if b.Image? && stale then []
      else if superseded then WithoutServer(b)
      else [b]
  }

  /** What is left of a message, in order. */
  function LeftAt(ms: seq<Message>, i: nat): Message
    requires i < |ms|
  {
    ms[i].(content := FlatMap(LeftOf(IsSuperseded(ms, i), i + 2 < |ms|), ms[i].content))
  }

  function One(b: Block): seq<Block> {
    [b]
  }

  lemma {:induction false} EachOne(bs: seq<Block>)
    ensures FlatMap(One, bs) == bs
  {
    if bs != [] {
      EachOne(bs[..|bs| - 1]);
    }
  }

  /** One step of the stripping, and the same for a single block. */
  lemma FilteredStep(on: bool, keep: Block -> bool, f: Block -> seq<Block>, g: Block -> seq<Block>, bs: seq<Block>)
    requires forall b :: g(b) == if on then Filter(keep, f(b)) else f(b)
    ensures (if on then Filter(keep, FlatMap(f, bs)) else FlatMap(f, bs)) == FlatMap(g, bs)
  {
    if on {
      FilterFlatMap(keep, f, g, bs);
    } else {
      SameFlat(f, g, bs);
    }
  }

  lemma {:induction false} SameFlat(f: Block -> seq<Block>, g: Block -> seq<Block>, bs: seq<Block>)
    requires forall b :: g(b) == f(b)
    ensures FlatMap(f, bs) == FlatMap(g, bs)
  {
    if bs != [] {
      SameFlat(f, g, bs[..|bs| - 1]);
    }
  }

  lemma LeftBlocks(superseded: bool, stale: bool, bs: seq<Block>)
    ensures var c := if superseded then Filter(NotThinking, Condensed(bs)) else bs;
            (if stale then Filter(NotImage, c) else c) == FlatMap(LeftOf(superseded, stale), bs)
  {
    var f: Block -> seq<Block> := if superseded then WithoutServer else One;
    var g := (b: Block) => if superseded then Filter(NotThinking, f(b)) else f(b);
    CondensedExactly(bs);
    EachOne(bs);
    FilteredStep(superseded, NotThinking, f, g, bs);
    forall b ensures LeftOf(superseded, stale)(b) == if stale then Filter(NotImage, g(b)) else g(b) {
      LeftBlock(superseded, stale, b);
    }
    FilteredStep(stale, NotImage, g, LeftOf(superseded, stale), bs);
  }

  lemma LeftBlock(superseded: bool, stale: bool, b: Block)
    ensures var w := if superseded then WithoutServer(b) else One(b);
            var c := if superseded then Filter(NotThinking, w) else w;
            (if stale then Filter(NotImage, c) else c) == LeftOf(superseded, stale)(b)
  {
    var w := if superseded then WithoutServer(b) else One(b);
    FilterShort(NotThinking, w);
    FilterShort(NotImage, w);
    FilterShort(NotImage, []);
  }

  lemma FilterShort(keep: Block -> bool, w: seq<Block>)
    requires |w| <= 1
    ensures Filter(keep, w) == if w == [] || keep(w[0]) then w else []
  {
    if w != [] {
      assert w[..0] == [];
    }
  }

  lemma StripAtExactly(ms: seq<Message>, i: nat)
    requires i < |ms|
    ensures StripAt(ms, i) == LeftAt(ms, i)
  {
    var superseded, stale := IsSuperseded(ms, i), i + 2 < |ms|;
    assert superseded <==> ms[i].role == Assistant && i != LastAssistant(ms);
    assert stale <==> !(i >= SaturatingSub(|ms|, 2));
    LeftBlocks(superseded, stale, ms[i].content);
  }

  /** Layer 0 leaves of every message what is left of its blocks, and removes
      the message only if that is nothing and it is no system message. */
  lemma StrippedExactly(ms: seq<Message>)
    ensures EphemeralStripped(ms) ==
              Filter((m: Message) => m.role == System || m.content != [],
                     seq(|ms|, i requires 0 <= i < |ms| => LeftAt(ms, i)))
  {
    forall i | 0 <= i < |ms| ensures StripEach(ms)[i] == LeftAt(ms, i) {
      StripAtExactly(ms, i);
    }
    assert StripEach(ms) == seq(|ms|, i requires 0 <= i < |ms| => LeftAt(ms, i));
    FilterAgree(SystemOrNonEmpty, (m: Message) => m.role == System || m.content != [], StripEach(ms));
  }

  /** `out` is `ms` with the big results in user messages before the last four
      truncated; every other block and everything else is the same. */
  ghost predicate OldResultsCut(out: seq<Message>, ms: seq<Message>, big: Block -> bool, max: Limits) {
    |out| == |ms| &&
    forall i :: 0 <= i < |ms| ==>
      && out[i].id == ms[i].id && out[i].role == ms[i].role && |out[i].content| == |ms[i].content|
      && forall k :: 0 <= k < |ms[i].content| ==>
           var b := ms[i].content[k];
           out[i].content[k] ==
             if i + 4 < |ms| && ms[i].role == User && b.ToolResult? && big(b) then SafeTruncated(b, max) else b
  }

  /** Above 60% of the budget results of more than an eighth of it are cut to
      200 lines and 8,000 bytes, above 90% all to 30 lines and 1,000 bytes. */
  lemma DegradedExactly(count: Counter, budget: ContextBudget, ms: seq<Message>)
    ensures var a := EphemeralStripped(ms);
            var b := Layer1(count, budget, a);
            var full := budget.messageBudget;
            && (if TotalTokens(count, a) > full * 60 / 100
                then OldResultsCut(b, a, (x: Block) => count(x) > full / 8, Limits(200, 8_000)) else b == a)
            && (if TotalTokens(count, b) > full * 90 / 100
                then OldResultsCut(Degraded(count, budget, ms), b, (x: Block) => true, Limits(30, 1_000))
                else Degraded(count, budget, ms) == b)
  {
  }

  // ---- dropping groups --------------------------------------------------

  function NonSystem(ms: seq<Message>): nat {
    |ms| - SystemPrefix(ms)
  }

  function GroupEnd(ms: seq<Message>): nat
    requires NonSystem(ms) > 4
    ensures SystemPrefix(ms) < GroupEnd(ms) <= |ms|
  {
    var start := SystemPrefix(ms);
    if ms[start + 1].role == User then start + 2 else start + 1
  }

  function GroupDropped(ms: seq<Message>): (r: seq<Message>)
    requires NonSystem(ms) > 4
    ensures |ms| - 2 <= |r| < |ms|
  {
    ms[..SystemPrefix(ms)] + ms[GroupEnd(ms)..]
  }

  method DropOldestGroup(messages: seq<Message>) returns (out: seq<Message>, removed: nat)
    ensures var s := SystemPrefix(messages);
            removed == if |messages| - s <= 4 then 0 else if messages[s + 1].role == User then 2 else 1
    ensures out == messages[..SystemPrefix(messages)] + messages[SystemPrefix(messages) + removed..]
    ensures out == if NonSystem(messages) > 4 then GroupDropped(messages) else messages
    ensures removed == |messages| - |out|
    ensures removed == 0 <==> NonSystem(messages) <= 4
  {
    var systemCount := SystemPrefix(messages);
    var nonSystem := |messages| - systemCount;
    if nonSystem <= 4 {
      return messages, 0;
    }
    var start := systemCount;
    var end := start + 1;
    if end < |messages| && messages[end].role == User {
      end := end + 1;
    }
    removed := end - start;
    out := messages[..start] + messages[end..];
  }

  // ---- what degradation guarantees --------------------------------------

  function AllBlocks(ms: seq<Message>): seq<Block> {
    if ms == [] then [] else AllBlocks(ms[..|ms| - 1]) + ms[|ms| - 1].content
  }

  lemma {:induction false} InAllBlocks(ms: seq<Message>)
    ensures forall b :: b in AllBlocks(ms) <==> exists m :: m in ms && b in m.content
  {
    if ms != [] {
      var t, m := ms[..|ms| - 1], ms[|ms| - 1];
      InAllBlocks(t);
      assert ms == t + [m];
    }
  }

  /** `out` is `ms` changed message by message in ways the store allows. */
  ghost predicate SoundEdit(out: seq<Message>, ms: seq<Message>) {
    && (AllServerPaired(ms) ==> AllServerPaired(out))
    && AllDerived(AllBlocks(out), AllBlocks(ms))
  }

  lemma SoundEditTrans(a: seq<Message>, b: seq<Message>, c: seq<Message>)
    requires SoundEdit(a, b) && SoundEdit(b, c)
    ensures SoundEdit(a, c)
  {
    DerivedTransitive(AllBlocks(a), AllBlocks(b), AllBlocks(c));
  }

  lemma PointwiseSound(out: seq<Message>, ms: seq<Message>)
    requires |out| == |ms|
    requires forall i :: 0 <= i < |ms| ==> (ServerPaired(ms[i]) ==> ServerPaired(out[i]))
    requires forall i :: 0 <= i < |ms| ==> AllDerived(out[i].content, ms[i].content)
    ensures SoundEdit(out, ms)
  {
    InAllBlocks(out);
    InAllBlocks(ms);
    forall b | b in AllBlocks(out) ensures exists s :: s in AllBlocks(ms) && Derived(b, s) {
      var m :| m in out && b in m.content;
      var i :| 0 <= i < |out| && out[i] == m;
      var s :| s in ms[i].content && Derived(b, s);
      assert ms[i] in ms;
    }
    if AllServerPaired(ms) {
      forall m | m in out ensures ServerPaired(m) {
        var i :| 0 <= i < |out| && out[i] == m;
        assert ms[i] in ms;
      }
    }
  }

  lemma SubsetSound(out: seq<Message>, ms: seq<Message>)
    requires forall m :: m in out ==> m in ms
    ensures SoundEdit(out, ms)
  {
    InAllBlocks(out);
    InAllBlocks(ms);
    DerivedSelf();
  }

  /** Filters of other block kinds leave the server pairs as they are. */
  lemma FilteredMessageSound(keep: Block -> bool, m: Message)
    requires forall b: Block :: b.ServerToolUse? || b.ServerToolResult? ==> keep(b)
    ensures var f := m.(content := Filter(keep, m.content));
            && ServerUseIds(f) == ServerUseIds(m) && ServerResultIds(f) == ServerResultIds(m)
            && AllDerived(f.content, m.content)
  {
    FilterIn(keep, m.content);
    DerivedSelf();
  }

  lemma StripAtSound(ms: seq<Message>, i: nat)
    requires i < |ms|
    ensures ServerPaired(ms[i]) ==> ServerPaired(StripAt(ms, i))
    ensures AllDerived(StripAt(ms, i).content, ms[i].content)
    ensures StripAt(ms, i).role == ms[i].role
  {
    var m, c := ms[i], OldCondensed(ms, i);
    CondensedIsPaired(m);
    CondensedBlocks(m.content);
    DerivedSelf();
    assert AllDerived(c.content, m.content);
    StripOldSound(c, i == LastAssistant(ms), i >= SaturatingSub(|ms|, 2));
    DerivedTransitive(StripAt(ms, i).content, c.content, m.content);
  }

  lemma StripOldSound(c: Message, lastAssistant: bool, recent: bool)
    ensures var f := StripOld(c, lastAssistant, recent);
            f.role == c.role && (ServerPaired(c) ==> ServerPaired(f)) && AllDerived(f.content, c.content)
  {
    var m1 := if c.role == Assistant && !lastAssistant then c.(content := Filter(NotThinking, c.content)) else c;
    FilteredMessageSound(NotThinking, c);
    DerivedSelf();
    assert AllDerived(c.content, c.content);
    FilteredMessageSound(NotImage, m1);
    DerivedTransitive(Filter(NotImage, m1.content), m1.content, c.content);
  }

  lemma EphemeralStrippedSound(ms: seq<Message>)
    ensures SoundEdit(EphemeralStripped(ms), ms)
  {
    forall i | 0 <= i < |ms|
      ensures ServerPaired(ms[i]) ==> ServerPaired(StripEach(ms)[i])
      ensures AllDerived(StripEach(ms)[i].content, ms[i].content)
    {
      StripAtSound(ms, i);
    }
    PointwiseSound(StripEach(ms), ms);
    FilterIn(SystemOrNonEmpty, StripEach(ms));
    SubsetSound(EphemeralStripped(ms), StripEach(ms));
    SoundEditTrans(EphemeralStripped(ms), StripEach(ms), ms);
  }

  lemma OldUserBlocksSound(f: Block -> Block, ms: seq<Message>)
    requires forall b :: Derived(f(b), b)
    ensures SoundEdit(OldUserBlocks(f, ms), ms)
  {
    var out := OldUserBlocks(f, ms);
    forall i | 0 <= i < |ms|
      ensures ServerPaired(ms[i]) ==> ServerPaired(out[i])
      ensures AllDerived(out[i].content, ms[i].content)
    {
      MappedDerived(f, ms[i].content);
      DerivedSelf();
    }
    PointwiseSound(out, ms);
  }

  lemma RewritesDerive(count: Counter, threshold: nat)
    ensures forall b :: Derived(Shortener(count, threshold)(b), b)
    ensures forall b :: Derived(EmergencyBlock(b), b)
  {
    DerivedSelf();
    forall b ensures Derived(Shortener(count, threshold)(b), b) && Derived(EmergencyBlock(b), b) {
      DerivedOnce(b, LAYER1);
      DerivedOnce(b, EMERGENCY);
    }
  }

  lemma DegradedSound(count: Counter, budget: ContextBudget, ms: seq<Message>)
    ensures SoundEdit(Degraded(count, budget, ms), ms)
  {
    var a := EphemeralStripped(ms);
    var b := Layer1(count, budget, a);
    EphemeralStrippedSound(ms);
    RewritesDerive(count, budget.messageBudget / 8);
    OldUserBlocksSound(Shortener(count, budget.messageBudget / 8), a);
    OldUserBlocksSound(EmergencyBlock, b);
    SubsetSound(a, a);
    SubsetSound(b, b);
    SoundEditTrans(b, a, ms);
    SoundEditTrans(Degraded(count, budget, ms), b, ms);
  }

  // ---- system messages --------------------------------------------------

  function WithoutImages(m: Message): Message {
    m.(content := Filter(NotImage, m.content))
  }

  /** The system messages in order, up to the images that layer 0 strips. */
  function SystemTexts(ms: seq<Message>): seq<Message> {
    Map(WithoutImages, Systems(ms))
  }

  lemma {:induction false} SystemTextsPointwise(a: seq<Message>, b: seq<Message>)
    requires |a| == |b|
    requires forall i :: 0 <= i < |a| ==> a[i].role == b[i].role
    requires forall i :: 0 <= i < |a| && a[i].role == System ==> WithoutImages(a[i]) == WithoutImages(b[i])
    ensures SystemTexts(a) == SystemTexts(b)
  {
    if a != [] {
      var a', b' := a[..|a| - 1], b[..|b| - 1];
      SystemTextsPointwise(a', b');
      if a[|a| - 1].role == System {
        assert SystemTexts(a) == SystemTexts(a') + [WithoutImages(a[|a| - 1])];
        assert SystemTexts(b) == SystemTexts(b') + [WithoutImages(b[|b| - 1])];
      } else {
        assert Systems(a) == Systems(a') && Systems(b) == Systems(b');
      }
    }
  }

  lemma StrippedKeepsSystems(ms: seq<Message>)
    ensures SystemTexts(EphemeralStripped(ms)) == SystemTexts(ms)
  {
    var each := StripEach(ms);
    forall i | 0 <= i < |ms|
      ensures each[i].role == ms[i].role
      ensures ms[i].role == System ==> WithoutImages(each[i]) == WithoutImages(ms[i])
    {
      StripAtSound(ms, i);
      FilterFilter(NotImage, NotImage, NotImage, ms[i].content);
    }
    SystemTextsPointwise(each, ms);
    FilterFilter(IsSystem, SystemOrNonEmpty, IsSystem, each);
  }

  lemma OldUserBlocksKeepsSystems(f: Block -> Block, ms: seq<Message>)
    ensures SystemTexts(OldUserBlocks(f, ms)) == SystemTexts(ms)
  {
    SystemTextsPointwise(OldUserBlocks(f, ms), ms);
  }

  lemma DegradedKeepsSystems(count: Counter, budget: ContextBudget, ms: seq<Message>)
    ensures SystemTexts(Degraded(count, budget, ms)) == SystemTexts(ms)
  {
    var a := EphemeralStripped(ms);
    StrippedKeepsSystems(ms);
    OldUserBlocksKeepsSystems(Shortener(count, budget.messageBudget / 8), a);
    OldUserBlocksKeepsSystems(EmergencyBlock, Layer1(count, budget, a));
  }

  lemma GroupDroppedKeepsSystems(ms: seq<Message>)
    requires NonSystem(ms) > 4
    ensures Systems(GroupDropped(ms)) == Systems(ms)
  {
    var s, e := SystemPrefix(ms), GroupEnd(ms);
    assert ms == ms[..s] + ms[s..e] + ms[e..];
    FilterCut(IsSystem, ms[..s], ms[s..e], ms[e..]);
  }

  lemma GroupDroppedCostsLess(count: Counter, ms: seq<Message>)
    requires NonSystem(ms) > 4
    ensures TotalTokens(count, GroupDropped(ms)) < TotalTokens(count, ms)
  {
    var s, e := SystemPrefix(ms), GroupEnd(ms);
    assert ms == ms[..s] + (ms[s..e] + ms[e..]);
    TotalTokensConcat(count, ms[..s], ms[s..e] + ms[e..]);
    TotalTokensConcat(count, ms[s..e], ms[e..]);
    FourPerMessage(count, ms[s..e]);
    TotalTokensConcat(count, ms[..s], ms[e..]);
  }
}
