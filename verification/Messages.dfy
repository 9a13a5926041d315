/** Conversation messages (loopal-message/src/message.rs). */
module Messages {
  import opened Prelude
  import opened JsonValues

  datatype Role = User | Assistant | System

  datatype ImageSource = ImageSource(sourceType: string, mediaType: string, data: string)

  datatype Block =
    | Text(text: string)
    | ToolUse(id: string, name: string, input: Json)
    | ToolResult(toolUseId: string, content: string, isError: bool, isCompletion: bool,
                 metadata: Option<Json>)
    | Image(source: ImageSource)
    | Thinking(thinking: string, signature: Option<string>)
    | ServerToolUse(id: string, name: string, input: Json)
    | ServerToolResult(blockType: string, toolUseId: string, payload: Json)

  datatype Message = Message(id: Option<string>, role: Role, content: seq<Block>)

  // ---- token counting ---------------------------------------------------

  /** The tokenizer is a parameter: any natural number per block. A message
      costs its blocks plus 4. */
  type Counter = Block -> nat

  function BlocksTokens(count: Counter, bs: seq<Block>): nat {
    if bs == [] then 0 else BlocksTokens(count, bs[..|bs| - 1]) + count(bs[|bs| - 1])
  }

  function MessageTokens(count: Counter, m: Message): nat {
    BlocksTokens(count, m.content) + 4
  }

  function TotalTokens(count: Counter, ms: seq<Message>): nat {
    if ms == [] then 0 else TotalTokens(count, ms[..|ms| - 1]) + MessageTokens(count, ms[|ms| - 1])
  }

  lemma {:induction false} FilterCostsLess(count: Counter, keep: Block -> bool, bs: seq<Block>)
    ensures BlocksTokens(count, Filter(keep, bs)) <= BlocksTokens(count, bs)
  {
    if bs != [] {
      var t, b := bs[..|bs| - 1], bs[|bs| - 1];
      FilterCostsLess(count, keep, t);
      if keep(b) {
        assert Filter(keep, bs)[..|Filter(keep, t)|] == Filter(keep, t);
      } else {
        assert Filter(keep, bs) == Filter(keep, t);
      }
    }
  }

  lemma {:induction false} FilterMessagesCostsLess(count: Counter, keep: Message -> bool, ms: seq<Message>)
    ensures TotalTokens(count, Filter(keep, ms)) <= TotalTokens(count, ms)
  {
    if ms != [] {
      var t, m := ms[..|ms| - 1], ms[|ms| - 1];
      FilterMessagesCostsLess(count, keep, t);
      if keep(m) {
        assert Filter(keep, ms)[..|Filter(keep, t)|] == Filter(keep, t);
      } else {
        assert Filter(keep, ms) == Filter(keep, t);
      }
    }
  }

  lemma {:induction false} PointwiseCostsLess(count: Counter, a: seq<Message>, b: seq<Message>)
    requires |a| == |b|
    requires forall i :: 0 <= i < |a| ==> MessageTokens(count, a[i]) <= MessageTokens(count, b[i])
    ensures TotalTokens(count, a) <= TotalTokens(count, b)
  {
    if a != [] {
      PointwiseCostsLess(count, a[..|a| - 1], b[..|b| - 1]);
    }
  }

  lemma {:induction false} TotalTokensConcat(count: Counter, a: seq<Message>, b: seq<Message>)
    ensures TotalTokens(count, a + b) == TotalTokens(count, a) + TotalTokens(count, b)
  {
    if b == [] {
      assert a + b == a;
    } else {
      assert (a + b)[..|a + b| - 1] == a + b[..|b| - 1];
      TotalTokensConcat(count, a, b[..|b| - 1]);
    }
  }

  lemma {:induction false} BlocksTokensConcat(count: Counter, a: seq<Block>, b: seq<Block>)
    ensures BlocksTokens(count, a + b) == BlocksTokens(count, a) + BlocksTokens(count, b)
  {
    if b == [] {
      assert a + b == a;
    } else {
      assert (a + b)[..|a + b| - 1] == a + b[..|b| - 1];
      BlocksTokensConcat(count, a, b[..|b| - 1]);
    }
  }

  function ContentOf(m: Message): seq<Block> {
    m.content
  }

  /** A conversation costs what its blocks cost, and 4 for every message. */
  lemma {:induction false} TotalTokensExactly(count: Counter, ms: seq<Message>)
    ensures TotalTokens(count, ms) == BlocksTokens(count, FlatMap(ContentOf, ms)) + 4 * |ms|
    ensures forall b :: BlocksTokens(count, [b]) == count(b)
  {
    if ms != [] {
      var t, m := ms[..|ms| - 1], ms[|ms| - 1];
      TotalTokensExactly(count, t);
      BlocksTokensConcat(count, FlatMap(ContentOf, t), m.content);
    }
    assert forall b :: BlocksTokens(count, [b]) == BlocksTokens(count, []) + count(b);
  }

  lemma {:induction false} FourPerMessage(count: Counter, ms: seq<Message>)
    ensures TotalTokens(count, ms) >= 4 * |ms|
  {
    if ms != [] {
      FourPerMessage(count, ms[..|ms| - 1]);
    }
  }

  // ---- pairing ----------------------------------------------------------

  /** Ids of the client tool calls in assistant messages. */
  function UseIds(ms: seq<Message>): set<string> {
    set m, b | m in ms && m.role == Assistant && b in m.content && b.ToolUse? :: b.id
  }

  /** Ids answered by tool results in user messages. */
  function ResultIds(ms: seq<Message>): set<string> {
    set m, b | m in ms && m.role == User && b in m.content && b.ToolResult? :: b.toolUseId
  }

  function ServerUseIds(m: Message): set<string> {
    set b | b in m.content && b.ServerToolUse? :: b.id
  }

  function ServerResultIds(m: Message): set<string> {
    set b | b in m.content && b.ServerToolResult? :: b.toolUseId
  }

  predicate ServerPaired(m: Message) {
    m.role == Assistant ==> ServerUseIds(m) == ServerResultIds(m)
  }

  predicate AllServerPaired(ms: seq<Message>) {
    forall m :: m in ms ==> ServerPaired(m)
  }

  /** Every call is answered and every answer has its call. */
  predicate PairClosed(ms: seq<Message>) {
    UseIds(ms) == ResultIds(ms) && AllServerPaired(ms)
  }

  // ---- what is left of the system messages ------------------------------

  predicate IsSystem(m: Message) {
    m.role == System
  }

  predicate SystemOrNonEmpty(m: Message) {
    m.role == System || m.content != []
  }

  function Systems(ms: seq<Message>): seq<Message> {
    Filter(IsSystem, ms)
  }

  /** Length of the leading run of system messages. */
  function SystemPrefix(ms: seq<Message>): (n: nat)
    ensures n <= |ms|
    ensures forall i :: 0 <= i < n ==> ms[i].role == System
    ensures n < |ms| ==> ms[n].role != System
  {
    if ms == [] || ms[0].role != System then 0 else 1 + SystemPrefix(ms[1..])
  }
}
