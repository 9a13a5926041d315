/** Which messages the projection of a conversation shows, and their role,
    text and images (loopal-protocol/src/projection.rs). */
module ProjectedTexts {
  import opened Prelude
  import opened JsonValues
  import opened Messages
  import opened Projection
  import ProjectedCalls

  // ---- what should be shown ---------------------------------------------

  /** Texts as they are, a placeholder for an image, nothing for the rest. */
  function TextOf(b: Block): string {
    if b.Text? then b.text else if b.Image? then "[image]" else ""
  }

  function TextsOf(bs: seq<Block>): string {
    if bs == [] then "" else TextOf(bs[0]) + TextsOf(bs[1..])
  }

  function ImagesIn(bs: seq<Block>): nat {
    if bs == [] then 0 else (if bs[0].Image? then 1 else 0) + ImagesIn(bs[1..])
  }

  function RoleName(role: Role): string {
    if role == User then "user" else if role == Assistant then "assistant" else "system"
  }

  /** Everything of a projected message but the calls themselves. */
  datatype Heading = Heading(role: string, content: string, images: nat, calls: nat)

  function HeadingOf(m: ProjectedMessage): Heading {
    Heading(m.role, m.content, m.imageCount, |m.toolCalls|)
  }

  /** A message is shown if it makes a call or has some text. */
  function OwnHeading(m: Message): seq<Heading> {
    var text, calls := TextsOf(m.content), ProjectedCalls.CallCount(m.content);
    if calls == 0 && text == "" then [] else [Heading(RoleName(m.role), text, ImagesIn(m.content), calls)]
  }

  /** Each completion of a call used before it, with its text in full. */
  function CompletionHeadings(used: set<string>, bs: seq<Block>): seq<Heading> {
    if bs == [] then []
    else
      var before, b := bs[..|bs| - 1], bs[|bs| - 1];
      CompletionHeadings(used, before)
      + (if b.ToolResult? && b.isCompletion && b.toolUseId in used + IdsUsed(before)
         then [Heading("assistant", b.content, 0, 0)] else [])
  }

  /** Message by message, the completions in it before the message itself;
      `used` are the ids of the calls made before. */
  function Headings(used: set<string>, ms: seq<Message>): seq<Heading>
    decreases ms
  {
    if ms == [] then []
    else
      CompletionHeadings(used, ms[0].content) + OwnHeading(ms[0])
      + Headings(used + IdsUsed(ms[0].content), ms[1..])
  }

  // ---- it is what is shown ----------------------------------------------

  lemma BlockIs(render: Render, c: Current, b: Block)
    ensures var r := ReadBlock(render, c, b);
            && r.text == c.text + TextOf(b) && r.images == c.images + (if b.Image? then 1 else 0)
            && |r.calls| == |c.calls| + (if ProjectedCalls.IsCall(b) then 1 else 0)
  {
  }

  lemma Associate(a: string, b: string, c: string)
    ensures (a + b) + c == a + (b + c)
  {
  }

  lemma {:induction false} ReadIs(render: Render, c: Current, bs: seq<Block>)
    ensures var r := ReadBlocks(render, c, bs);
            && r.text == c.text + TextsOf(bs) && r.images == c.images + ImagesIn(bs)
            && |r.calls| == |c.calls| + ProjectedCalls.CallCount(bs)
    decreases bs
  {
    if bs != [] {
      var c1 := ReadBlock(render, c, bs[0]);
      BlockIs(render, c, bs[0]);
      ReadIs(render, c1, bs[1..]);
      Associate(c.text, TextOf(bs[0]), TextsOf(bs[1..]));
    }
  }

  lemma OwnIs(render: Render, known: set<string>, m: Message, later: seq<Block>)
    ensures Map(HeadingOf, Own(render, known, m, later)) == OwnHeading(m)
  {
    ReadIs(render, Blank, m.content);
    ProjectedCalls.LiveCount(render, known, [], m.content);
    assert "" + TextsOf(m.content) == TextsOf(m.content);
  }

  lemma {:induction false} PromotionsConcat(a: seq<Block>, b: seq<Block>, known: set<string>)
    ensures Promotions(a + b, known) == Promotions(a, known) + Promotions(b, known + IdsUsed(a))
  {
    if a == [] {
      assert a + b == b && known + IdsUsed(a) == known;
    } else {
      assert (a + b)[1..] == a[1..] + b;
      PromotionsConcat(a[1..], b, Knowing(known, a[0]));
      IdsOfFirst(a);
      assert Knowing(known, a[0]) + IdsUsed(a[1..]) == known + IdsUsed(a);
    }
  }

  lemma {:induction false} PromotionsAre(bs: seq<Block>, known: set<string>)
    ensures Map(HeadingOf, Promotions(bs, known)) == CompletionHeadings(known, bs)
  {
    if bs != [] {
      var before, b := bs[..|bs| - 1], bs[|bs| - 1];
      assert bs == before + [b];
      PromotionsConcat(before, [b], known);
      PromotionsAre(before, known);
      var last := Promotions([b], known + IdsUsed(before));
      assert [b][1..] == [];
      MapConcat(HeadingOf, Promotions(before, known), last);
    }
  }

  lemma {:induction false} LookedUpHeadings(render: Render, ms: seq<Message>, known: set<string>)
    ensures Map(HeadingOf, LookedUp(render, ms, known)) == Headings(known, ms)
  {
    if ms != [] {
      var m, rest, known' := ms[0], ms[1..], known + IdsUsed(ms[0].content);
      var p, own := Promotions(m.content, known), Own(render, known, m, BlocksOf(rest));
      LookedUpHeadings(render, rest, known');
      PromotionsAre(m.content, known);
      OwnIs(render, known, m, BlocksOf(rest));
      MapConcat(HeadingOf, p + own, LookedUp(render, rest, known'));
      MapConcat(HeadingOf, p, own);
    }
  }

  /** The projection shows, in order, exactly the messages with a call or some
      text, each with its role, its whole text, its images and as many calls as
      it makes, and before each the completions it holds. */
  lemma EveryMessageIsShown(render: Render, ms: seq<Message>)
    ensures Map(HeadingOf, Indexed(render, ms)) == Headings({}, ms)
  {
    IndexAgreesWithLookup(render, ms);
    LookedUpHeadings(render, ms, {});
  }
}
