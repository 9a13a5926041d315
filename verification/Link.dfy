/** Two connections joined by a FIFO channel each way: which response a caller
    of `send_request` receives (loopal-ipc/src/connection.rs). */
module Link {
  import opened Prelude
  import opened JsonValues
  import opened JsonRpc
  import opened Connection

  datatype Req = Req(id: int, call: Call)

  datatype Answer = Answer(id: int, value: Json)

  /** One side: its connection, whether its reader loop runs, the calls taken
      but not yet on the wire, and the record of the requests it sent, of all it
      posted (requests and notifications), answered and heard. */
  datatype Side = Side(conn: Endpoint, reading: bool, unsent: set<nat>, sent: seq<Req>,
                       posted: seq<IncomingMessage>, answers: seq<Answer>, heard: seq<Answer>)

  const FreshSide := Side(Fresh, true, {}, [], [], [], [])

  /** `ab` carries messages from `a` to `b`, oldest first. */
  datatype Net = Net(a: Side, b: Side, ab: seq<Json>, ba: seq<Json>)

  const Init := Net(FreshSide, FreshSide, [], [])

  datatype Action =
    | Begin(call: Call)
    | Transmit(k: nat)
    | TransmitFails(k: nat)
    | Cancel(k: nat, unlocked: bool)
    | Notify(call: Call)
    | Respond(id: int, result: Json)
    | RespondError(id: int, code: int, message: string)
    | Deliver
    | CloseReader

  datatype Step = Step(byA: bool, action: Action)

  // ---- what a message carries -------------------------------------------

  function RequestOf(m: IncomingMessage): seq<Req> {
    match m
    case Request(id, name, params) => [Req(id, Call(name, params))]
    case _ => []
  }

  function RequestIn(data: Json): seq<Req> {
    match Parse(data)
    case Some(m) => RequestOf(m)
    case None => []
  }

  /** A request or notification, as it is passed on to the application. */
  function PostIn(data: Json): seq<IncomingMessage> {
    match Parse(data)
    case Some(Response(_, _, _)) => []
    case Some(m) => [m]
    case None => []
  }

  function AnswerIn(data: Json): seq<Answer> {
    match Parse(data)
    case Some(Response(id, result, error)) => [Answer(id, ValueOf(result, error))]
    case _ => []
  }

  function Requests(inbox: seq<IncomingMessage>): seq<Req> {
    FlatMap(RequestOf, inbox)
  }

  predicate HasId(rs: seq<Req>, id: int) {
    exists r :: r in rs && r.id == id
  }

  predicate Answers(answers: seq<Answer>, id: int) {
    exists a :: a in answers && a.id == id
  }

  /** The value of the first answer to an id. */
  function FirstAnswer(answers: seq<Answer>, id: int): Option<Json> {
    if answers == [] then None
    else
      var before, last := FirstAnswer(answers[..|answers| - 1], id), answers[|answers| - 1];
      if before.Some? then before
      else if last.id == id then Some(last.value)
      else None
  }

  // ---- steps ------------------------------------------------------------

  datatype Turn = Turn(me: Side, outgoing: seq<Json>, incoming: seq<Json>)

  /** One action of a side, on its own state and its two channels. It answers
      only requests it has received. A future can be dropped while it waits, or
      during its send even if the reader loop has ended meanwhile. */
  function Act(t: Turn, action: Action): Turn {
    var me := t.me;
    match action
    case Begin(call) =>
      t.(me := me.(conn := Begun(me.conn, call), unsent := me.unsent + {|me.conn.callers|}))
    case Transmit(k) =>
      if k in me.unsent && k < |me.conn.callers| then
        var call := me.conn.callers[k].call;
        t.(me := me.(unsent := me.unsent - {k}, sent := me.sent + [Req(IdOf(k), call)],
                     posted := me.posted + [Request(IdOf(k), call.name, call.params)]),
           outgoing := t.outgoing + [EncodeRequest(IdOf(k), call.name, call.params)])
      else t
    case TransmitFails(k) =>
      if k in me.unsent && k < |me.conn.callers|
      then t.(me := me.(conn := SendFailed(me.conn, k), unsent := me.unsent - {k})) else t
    case Cancel(k, unlocked) =>
      if k >= |me.conn.callers| then t
      else if me.conn.callers[k].status == Waiting
      then t.(me := me.(conn := Dropped(me.conn, k, unlocked && k !in me.unsent), unsent := me.unsent - {k}))
      else t.(me := me.(unsent := me.unsent - {k}))
    case Notify(call) =>
      t.(me := me.(posted := me.posted + [Notification(call.name, call.params)]),
         outgoing := t.outgoing + [EncodeNotification(call.name, call.params)])
    case Respond(id, result) =>
      if HasId(Requests(me.conn.inbox), id) && IsI64(id) then
        t.(me := me.(answers := me.answers + [Answer(id, result)]),
           outgoing := t.outgoing + [EncodeResponse(id, result)])
      else t
    case RespondError(id, code, message) =>
      if HasId(Requests(me.conn.inbox), id) && IsI64(id) && IsI64(code) then
        t.(me := me.(answers := me.answers + [Answer(id, ErrorValue(RpcError(code, message, None)))]),
           outgoing := t.outgoing + [EncodeError(id, code, message)])
      else t
    case Deliver =>
      if t.incoming == [] || !me.reading then t
      else
        t.(me := HasRead(me, t.incoming[0]), incoming := t.incoming[1..])
    case CloseReader => if me.reading then t.(me := me.(conn := Cleared(me.conn), reading := false)) else t
  }

  function Next(n: Net, s: Step): Net {
    if s.byA then
      var t := Act(Turn(n.a, n.ab, n.ba), s.action);
      Net(t.me, n.b, t.outgoing, t.incoming)
    else
      var t := Act(Turn(n.b, n.ba, n.ab), s.action);
      Net(n.a, t.me, t.incoming, t.outgoing)
  }

  function Run(steps: seq<Step>): Net {
    if steps == [] then Init else Next(Run(steps[..|steps| - 1]), steps[|steps| - 1])
  }

  // ---- invariant of one side --------------------------------------------

  /** Ids, pending entries and unsettled callers belong together; a pending id
      has not been answered; a resolved caller has the first answer to its id. */
  predicate ConnOk(e: Endpoint, heard: seq<Answer>) {
    && PendingOk(e)
    && (forall id :: id in e.pending ==> !Answers(heard, id))
    && (forall k :: 0 <= k < |e.callers| ==> CallerOk(e, heard, k))
  }

  predicate CallerOk(e: Endpoint, heard: seq<Answer>, k: nat)
    requires k < |e.callers|
  {
    match e.callers[k].status
    case Waiting => IdOf(k) in e.pending && e.pending[IdOf(k)] == k
    case Resolved(v) => FirstAnswer(heard, IdOf(k)) == Some(v)
    case _ => true
  }

  /** What was sent are calls of this side under their own ids. */
  predicate SentOk(sent: seq<Req>, callers: seq<Caller>) {
    forall r :: r in sent ==> IsCallOf(r, callers)
  }

  /** A call not yet on the wire has no answer. */
  predicate UnsentOk(me: Side) {
    forall k :: k in me.unsent ==>
      && k < |me.conn.callers| && !me.conn.callers[k].status.Resolved?
      && !HasId(me.sent, IdOf(k))
  }

  predicate IsCallOf(r: Req, callers: seq<Caller>) {
    exists k :: 0 <= k < |callers| && r == Req(IdOf(k), callers[k].call)
  }

  /** Only received requests are answered. */
  predicate AnswersOk(answers: seq<Answer>, received: seq<Req>) {
    forall a :: a in answers ==> HasId(received, a.id)
  }

  /** What one side posts and what comes back: nothing is lost, reordered or
      made up on the way to the peer and back. */
  predicate WireOk(me: Side, peer: Side, outgoing: seq<Json>, incoming: seq<Json>) {
    && peer.conn.inbox + FlatMap(PostIn, outgoing) == me.posted
    && Requests(peer.conn.inbox) + FlatMap(RequestIn, outgoing) == me.sent
    && me.heard + FlatMap(AnswerIn, incoming) == peer.answers
  }

  predicate SideOk(me: Side, peer: Side, outgoing: seq<Json>, incoming: seq<Json>) {
    && ConnOk(me.conn, me.heard)
    && SentOk(me.sent, me.conn.callers) && UnsentOk(me)
    && AnswersOk(peer.answers, Requests(peer.conn.inbox))
    && WireOk(me, peer, outgoing, incoming)
  }

  predicate Inv(n: Net) {
    SideOk(n.a, n.b, n.ab, n.ba) && SideOk(n.b, n.a, n.ba, n.ab)
  }

  // ---- operations of the endpoint keep it -------------------------------

  /** Ids already answered are ids of earlier calls. */
  lemma AnsweredIdsAreOld(me: Side, peer: Side, outgoing: seq<Json>, incoming: seq<Json>, id: int)
    requires SideOk(me, peer, outgoing, incoming) && Answers(me.heard, id)
    ensures exists k :: 0 <= k < |me.conn.callers| && id == IdOf(k)
  {
    var a :| a in me.heard && a.id == id;
    assert a in peer.answers;
    var r :| r in Requests(peer.conn.inbox) && r.id == id;
    assert r in me.sent;
    assert IsCallOf(r, me.conn.callers);
  }

  lemma OthersId(j: nat, k: nat)
    requires j < ID_SPACE && k < ID_SPACE && j != k
    ensures IdOf(j) != IdOf(k)
  {
    if j < k {
      IdsDistinct(j, k);
    } else {
      IdsDistinct(k, j);
    }
  }

  lemma BegunOk(e: Endpoint, heard: seq<Answer>, call: Call)
    requires ConnOk(e, heard) && |e.callers| < ID_SPACE
    requires !Answers(heard, IdOf(|e.callers|))
    ensures ConnOk(Begun(e, call), heard)
  {
    var n := |e.callers|;
    BegunPending(e, call);
    forall k | 0 <= k < n ensures IdOf(k) != IdOf(n) {
      OthersId(k, n);
    }
    assert e.nextId !in e.pending;
    var f := Begun(e, call);
    forall k | 0 <= k < |f.callers| ensures CallerOk(f, heard, k) {
      assert k < n ==> CallerOk(e, heard, k);
    }
  }

  lemma SendFailedOk(e: Endpoint, heard: seq<Answer>, k: nat)
    requires ConnOk(e, heard) && |e.callers| <= ID_SPACE && k < |e.callers| && !e.callers[k].status.Resolved?
    ensures ConnOk(SendFailed(e, k), heard)
  {
    var f := SendFailed(e, k);
    EveryOperationKeepsPending(e, k, false, 0, Null);
    forall j | 0 <= j < |f.callers| ensures CallerOk(f, heard, j) {
      assert CallerOk(e, heard, j);
      if j != k {
        OthersId(j, k);
      }
    }
  }

  lemma DroppedOk(e: Endpoint, heard: seq<Answer>, k: nat, cleaned: bool)
    requires ConnOk(e, heard) && |e.callers| <= ID_SPACE && k < |e.callers| && e.callers[k].status == Waiting
    ensures ConnOk(Dropped(e, k, cleaned), heard)
  {
    var f := Dropped(e, k, cleaned);
    EveryOperationKeepsPending(e, k, cleaned, 0, Null);
    forall j | 0 <= j < |f.callers| ensures CallerOk(f, heard, j) {
      assert CallerOk(e, heard, j);
      if j != k {
        OthersId(j, k);
      }
    }
  }

  lemma AnsweredOk(e: Endpoint, heard: seq<Answer>, a: Answer)
    requires ConnOk(e, heard)
    ensures ConnOk(Answered(e, a.id, a.value), heard + [a])
  {
    var f, heard' := Answered(e, a.id, a.value), heard + [a];
    EveryOperationKeepsPending(e, 0, false, a.id, a.value);
    assert heard'[..|heard|] == heard;
    forall id | id in f.pending ensures !Answers(heard', id) {
      assert !Answers(heard, id);
    }
    forall k | 0 <= k < |f.callers| ensures CallerOk(f, heard', k) {
      assert CallerOk(e, heard, k);
      if a.id in e.pending {
        NotAnswered(heard, a.id);
      }
    }
  }

  lemma {:induction false} NotAnswered(heard: seq<Answer>, id: int)
    requires !Answers(heard, id)
    ensures FirstAnswer(heard, id) == None
  {
    if heard != [] {
      assert heard[|heard| - 1] in heard;
      NotAnswered(heard[..|heard| - 1], id);
    }
  }

  lemma ClearedOk(e: Endpoint, heard: seq<Answer>)
    requires ConnOk(e, heard)
    ensures ConnOk(Cleared(e), heard)
  {
    var f := Cleared(e);
    EveryOperationKeepsPending(e, 0, false, 0, Null);
    forall k | 0 <= k < |f.callers| ensures CallerOk(f, heard, k) {
      assert CallerOk(e, heard, k);
      if e.callers[k].status == Waiting {
        assert Held(e.pending, k);
      }
    }
  }

  lemma SentStays(sent: seq<Req>, callers: seq<Caller>, callers': seq<Caller>)
    requires SentOk(sent, callers) && |callers| <= |callers'|
    requires forall k :: 0 <= k < |callers| ==> callers'[k].call == callers[k].call
    ensures SentOk(sent, callers')
  {
    forall r | r in sent ensures IsCallOf(r, callers') {
      assert IsCallOf(r, callers);
      var k :| 0 <= k < |callers| && r == Req(IdOf(k), callers[k].call);
      assert r == Req(IdOf(k), callers'[k].call);
    }
  }

  // ---- actions keep the invariant ---------------------------------------

  /** The invariant of both directions, seen from the acting side. */
  predicate Both(me: Side, peer: Side, outgoing: seq<Json>, incoming: seq<Json>) {
    SideOk(me, peer, outgoing, incoming) && SideOk(peer, me, incoming, outgoing)
  }

  /** A change of the acting side's callers alone. */
  lemma OwnConnChanged(me: Side, peer: Side, outgoing: seq<Json>, incoming: seq<Json>, me': Side)
    requires Both(me, peer, outgoing, incoming)
    requires ConnOk(me'.conn, me'.heard) && UnsentOk(me')
    requires Continues(me'.conn, me.conn) && me'.conn.inbox == me.conn.inbox
    requires me'.sent == me.sent && me'.posted == me.posted && me'.answers == me.answers && me'.heard == me.heard
    ensures Both(me', peer, outgoing, incoming)
  {
    SentStays(me.sent, me.conn.callers, me'.conn.callers);
  }

  /** The id of the next call has neither been sent nor answered. */
  lemma NextIdIsNew(me: Side, peer: Side, outgoing: seq<Json>, incoming: seq<Json>)
    requires SideOk(me, peer, outgoing, incoming) && |me.conn.callers| < ID_SPACE
    ensures !Answers(me.heard, IdOf(|me.conn.callers|)) && !HasId(me.sent, IdOf(|me.conn.callers|))
  {
    var n := |me.conn.callers|;
    if Answers(me.heard, IdOf(n)) {
      AnsweredIdsAreOld(me, peer, outgoing, incoming, IdOf(n));
      var k :| 0 <= k < n && IdOf(n) == IdOf(k);
      OthersId(k, n);
    }
    if HasId(me.sent, IdOf(n)) {
      var r :| r in me.sent && r.id == IdOf(n);
      assert IsCallOf(r, me.conn.callers);
      var k :| 0 <= k < n && r == Req(IdOf(k), me.conn.callers[k].call);
      OthersId(k, n);
    }
  }

  lemma BeginKeeps(me: Side, peer: Side, outgoing: seq<Json>, incoming: seq<Json>, call: Call)
    requires Both(me, peer, outgoing, incoming) && |me.conn.callers| < ID_SPACE
    ensures var t := Act(Turn(me, outgoing, incoming), Begin(call));
            Both(t.me, peer, t.outgoing, t.incoming)
  {
    var t := Act(Turn(me, outgoing, incoming), Begin(call));
    NextIdIsNew(me, peer, outgoing, incoming);
    BegunOk(me.conn, me.heard, call);
    EveryOperationContinues(me.conn, call, 0, false, Null);
    forall k | k in t.me.unsent
      ensures k < |t.me.conn.callers| && !t.me.conn.callers[k].status.Resolved? && !HasId(me.sent, IdOf(k))
    {
      assert k in me.unsent || k == |me.conn.callers|;
      if k in me.unsent {
        OthersId(k, |me.conn.callers|);
      }
    }
    OwnConnChanged(me, peer, outgoing, incoming, t.me);
  }

  /** Something goes on the wire and into the records. */
  lemma Transmitted(me: Side, peer: Side, outgoing: seq<Json>, incoming: seq<Json>, me': Side, data: Json)
    requires Both(me, peer, outgoing, incoming)
    requires me'.conn == me.conn && me'.heard == me.heard
    requires me'.sent == me.sent + RequestIn(data) && me'.answers == me.answers + AnswerIn(data)
    requires me'.posted == me.posted + PostIn(data)
    requires SentOk(me'.sent, me.conn.callers) && UnsentOk(me')
    requires AnswersOk(me'.answers, Requests(me.conn.inbox))
    ensures Both(me', peer, outgoing + [data], incoming)
  {
    WireGains(RequestIn, Requests(peer.conn.inbox), outgoing, data, me.sent);
    WireGains(PostIn, peer.conn.inbox, outgoing, data, me.posted);
    WireGains(AnswerIn, peer.heard, outgoing, data, me.answers);
    assert WireOk(me', peer, outgoing + [data], incoming);
    assert WireOk(peer, me', incoming, outgoing + [data]);
  }

  /** One more message on the wire. */
  lemma WireGains<T>(part: Json -> seq<T>, received: seq<T>, wire: seq<Json>, data: Json, all: seq<T>)
    requires received + FlatMap(part, wire) == all
    ensures received + FlatMap(part, wire + [data]) == all + part(data)
  {
    FlatMapLast(part, wire, data);
  }

  /** The oldest message leaves the wire. */
  lemma WireLoses<T>(part: Json -> seq<T>, received: seq<T>, data: Json, rest: seq<Json>, all: seq<T>)
    requires received + FlatMap(part, [data] + rest) == all
    ensures (received + part(data)) + FlatMap(part, rest) == all
  {
    FlatMapConcat(part, [data], rest);
    FlatMapOne(part, data);
  }

  lemma TransmitKeeps(me: Side, peer: Side, outgoing: seq<Json>, incoming: seq<Json>, k: nat)
    requires Both(me, peer, outgoing, incoming) && |me.conn.callers| <= ID_SPACE
    ensures var t := Act(Turn(me, outgoing, incoming), Transmit(k));
            Both(t.me, peer, t.outgoing, t.incoming)
  {
    if k in me.unsent && k < |me.conn.callers| {
      var t := Act(Turn(me, outgoing, incoming), Transmit(k));
      var call := me.conn.callers[k].call;
      RequestRoundTrip(IdOf(k), call.name, call.params);
      assert IsCallOf(Req(IdOf(k), call), me.conn.callers);
      forall j | j in t.me.unsent ensures !HasId(t.me.sent, IdOf(j)) {
        assert !HasId(me.sent, IdOf(j));
        OthersId(j, k);
      }
      Transmitted(me, peer, outgoing, incoming, t.me, EncodeRequest(IdOf(k), call.name, call.params));
    }
  }

  lemma NotifyKeeps(me: Side, peer: Side, outgoing: seq<Json>, incoming: seq<Json>, call: Call)
    requires Both(me, peer, outgoing, incoming)
    ensures var t := Act(Turn(me, outgoing, incoming), Notify(call));
            Both(t.me, peer, t.outgoing, t.incoming)
  {
    var t := Act(Turn(me, outgoing, incoming), Notify(call));
    NotificationRoundTrip(call.name, call.params);
    Transmitted(me, peer, outgoing, incoming, t.me, EncodeNotification(call.name, call.params));
  }

  lemma RespondKeeps(me: Side, peer: Side, outgoing: seq<Json>, incoming: seq<Json>, data: Json, a: Answer)
    requires Both(me, peer, outgoing, incoming)
    requires HasId(Requests(me.conn.inbox), a.id) && AnswerIn(data) == [a]
    requires RequestIn(data) == [] && PostIn(data) == []
    ensures Both(me.(answers := me.answers + [a]), peer, outgoing + [data], incoming)
  {
    Transmitted(me, peer, outgoing, incoming, me.(answers := me.answers + [a]), data);
  }

  /** Reading one message: an answer settles its caller, a request arrives. */
  lemma ReadOk(e: Endpoint, heard: seq<Answer>, data: Json)
    requires ConnOk(e, heard)
    ensures ConnOk(Read(e, data), heard + AnswerIn(data))
    ensures Requests(Read(e, data).inbox) == Requests(e.inbox) + RequestIn(data)
    ensures Read(e, data).inbox == e.inbox + PostIn(data)
  {
    match Parse(data) {
      case Some(Response(id, result, error)) => AnsweredOk(e, heard, Answer(id, ValueOf(result, error)));
      case Some(m) =>
        FlatMapLast(RequestOf, e.inbox, m);
        assert heard + [] == heard;
        var f := Read(e, data);
        forall k | 0 <= k < |f.callers| ensures CallerOk(f, heard, k) {
          assert CallerOk(e, heard, k);
        }
      case None => assert heard + [] == heard;
    }
  }

  /** The oldest message moves from the channel into the reader's record. */
  lemma Delivered(me: Side, peer: Side, outgoing: seq<Json>, data: Json, rest: seq<Json>, me': Side)
    requires Both(me, peer, outgoing, [data] + rest)
    requires me'.conn.inbox == me.conn.inbox + PostIn(data)
    requires Requests(me'.conn.inbox) == Requests(me.conn.inbox) + RequestIn(data)
    requires me'.heard == me.heard + AnswerIn(data)
    requires me'.sent == me.sent && me'.posted == me.posted && me'.answers == me.answers
    requires ConnOk(me'.conn, me'.heard) && UnsentOk(me') && Continues(me'.conn, me.conn)
    ensures Both(me', peer, outgoing, rest)
  {
    SentStays(me.sent, me.conn.callers, me'.conn.callers);
    forall a | a in me.answers ensures HasId(Requests(me'.conn.inbox), a.id) {
      var r :| r in Requests(me.conn.inbox) && r.id == a.id;
      assert r in Requests(me'.conn.inbox);
    }
    WireLoses(RequestIn, Requests(me.conn.inbox), data, rest, peer.sent);
    WireLoses(PostIn, me.conn.inbox, data, rest, peer.posted);
    WireLoses(AnswerIn, me.heard, data, rest, peer.answers);
    assert WireOk(me', peer, outgoing, rest);
    assert WireOk(peer, me', rest, outgoing);
  }

  function HasRead(me: Side, data: Json): Side {
    me.(conn := Read(me.conn, data), heard := me.heard + AnswerIn(data))
  }

  lemma DeliverKeeps(me: Side, peer: Side, outgoing: seq<Json>, data: Json, rest: seq<Json>)
    requires Both(me, peer, outgoing, [data] + rest)
    ensures Both(HasRead(me, data), peer, outgoing, rest)
  {
    ReadOk(me.conn, me.heard, data);
    ReadContinues(me.conn, data);
    ReadLeavesUnsent(me, peer, outgoing, data, rest);
    Delivered(me, peer, outgoing, data, rest, HasRead(me, data));
  }

  /** An answer that arrives is to a request that was sent. */
  lemma ReadLeavesUnsent(me: Side, peer: Side, outgoing: seq<Json>, data: Json, rest: seq<Json>)
    requires SideOk(me, peer, outgoing, [data] + rest)
    ensures UnsentOk(HasRead(me, data))
  {
    FlatMapConcat(AnswerIn, [data], rest);
    FlatMapOne(AnswerIn, data);
    forall a | a in AnswerIn(data) ensures HasId(me.sent, a.id) {
      assert a in peer.answers;
      var r :| r in Requests(peer.conn.inbox) && r.id == a.id;
      assert r in me.sent;
    }
    forall k | k in me.unsent ensures !Read(me.conn, data).callers[k].status.Resolved? {
      assert !HasId(me.sent, IdOf(k));
      match Parse(data)
      case Some(Response(id, result, error)) =>
        assert Answer(id, ValueOf(result, error)) in AnswerIn(data);
        if id in me.conn.pending {
          assert HasId(me.sent, IdOf(me.conn.pending[id]));
        }
      case _ =>
    }
  }

  lemma CancelKeeps(me: Side, peer: Side, outgoing: seq<Json>, incoming: seq<Json>, k: nat, unlocked: bool)
    requires Both(me, peer, outgoing, incoming) && |me.conn.callers| <= ID_SPACE
    ensures var t := Act(Turn(me, outgoing, incoming), Cancel(k, unlocked));
            Both(t.me, peer, t.outgoing, t.incoming)
  {
    var t := Act(Turn(me, outgoing, incoming), Cancel(k, unlocked));
    if k < |me.conn.callers| {
      if me.conn.callers[k].status == Waiting {
        DroppedOk(me.conn, me.heard, k, unlocked && k !in me.unsent);
        EveryOperationContinues(me.conn, Call("", Null), k, unlocked && k !in me.unsent, Null);
      }
      OwnConnChanged(me, peer, outgoing, incoming, t.me);
    }
  }

  lemma FailKeeps(me: Side, peer: Side, outgoing: seq<Json>, incoming: seq<Json>, k: nat)
    requires Both(me, peer, outgoing, incoming) && |me.conn.callers| <= ID_SPACE
    ensures var t := Act(Turn(me, outgoing, incoming), TransmitFails(k));
            Both(t.me, peer, t.outgoing, t.incoming)
  {
    var t := Act(Turn(me, outgoing, incoming), TransmitFails(k));
    if k in me.unsent && k < |me.conn.callers| {
      SendFailedOk(me.conn, me.heard, k);
      EveryOperationContinues(me.conn, Call("", Null), k, false, Null);
      OwnConnChanged(me, peer, outgoing, incoming, t.me);
    }
  }

  lemma CloseKeeps(me: Side, peer: Side, outgoing: seq<Json>, incoming: seq<Json>)
    requires Both(me, peer, outgoing, incoming)
    ensures var t := Act(Turn(me, outgoing, incoming), CloseReader);
            Both(t.me, peer, t.outgoing, t.incoming)
  {
    if me.reading {
      ClearedOk(me.conn, me.heard);
      ClearedContinues(me.conn);
      OwnConnChanged(me, peer, outgoing, incoming, Act(Turn(me, outgoing, incoming), CloseReader).me);
    }
  }

  lemma ActKeeps(me: Side, peer: Side, outgoing: seq<Json>, incoming: seq<Json>, action: Action)
    requires Both(me, peer, outgoing, incoming)
    requires |Act(Turn(me, outgoing, incoming), action).me.conn.callers| <= ID_SPACE
    ensures var t := Act(Turn(me, outgoing, incoming), action);
            Both(t.me, peer, t.outgoing, t.incoming)
  {
    match action {
      case Begin(call) => BeginKeeps(me, peer, outgoing, incoming, call);
      case Transmit(k) => TransmitKeeps(me, peer, outgoing, incoming, k);
      case TransmitFails(k) => FailKeeps(me, peer, outgoing, incoming, k);
      case Cancel(k, unlocked) => CancelKeeps(me, peer, outgoing, incoming, k, unlocked);
      case Notify(call) => NotifyKeeps(me, peer, outgoing, incoming, call);
      case Respond(id, result) =>
        if HasId(Requests(me.conn.inbox), id) && IsI64(id) {
          ResponseRoundTrip(id, result);
          RespondKeeps(me, peer, outgoing, incoming, EncodeResponse(id, result), Answer(id, result));
        }
      case RespondError(id, code, message) =>
        if HasId(Requests(me.conn.inbox), id) && IsI64(id) && IsI64(code) {
          ErrorRoundTrip(id, code, message);
          RespondKeeps(me, peer, outgoing, incoming, EncodeError(id, code, message),
                       Answer(id, ErrorValue(RpcError(code, message, None))));
        }
      case Deliver =>
        if incoming != [] && me.reading {
          assert incoming == [incoming[0]] + incoming[1..];
          DeliverKeeps(me, peer, outgoing, incoming[0], incoming[1..]);
        }
      case CloseReader => CloseKeeps(me, peer, outgoing, incoming);
    }
  }

  // ---- every run --------------------------------------------------------

  /** Neither side has made more requests than there are ids. */
  predicate IdsSuffice(n: Net) {
    |n.a.conn.callers| <= ID_SPACE && |n.b.conn.callers| <= ID_SPACE
  }

  lemma CallersStay(t: Turn, action: Action)
    ensures |t.me.conn.callers| <= |Act(t, action).me.conn.callers|
  {
  }

  lemma IdsSufficed(n: Net, s: Step)
    requires IdsSuffice(Next(n, s))
    ensures IdsSuffice(n)
  {
    if s.byA {
      CallersStay(Turn(n.a, n.ab, n.ba), s.action);
    } else {
      CallersStay(Turn(n.b, n.ba, n.ab), s.action);
    }
  }

  lemma NextKeepsInv(n: Net, s: Step)
    requires Inv(n) && IdsSuffice(Next(n, s))
    ensures Inv(Next(n, s))
  {
    if s.byA {
      ActKeeps(n.a, n.b, n.ab, n.ba, s.action);
    } else {
      ActKeeps(n.b, n.a, n.ba, n.ab, s.action);
    }
  }

  /** Runs of any length, as long as the ids suffice. */
  lemma {:induction false} ReachableInv(steps: seq<Step>)
    requires IdsSuffice(Run(steps))
    ensures Inv(Run(steps))
  {
    if steps == [] {
      assert Inv(Init);
    } else {
      var before, s := steps[..|steps| - 1], steps[|steps| - 1];
      IdsSufficed(Run(before), s);
      ReachableInv(before);
      NextKeepsInv(Run(before), s);
    }
  }

  function Mine(n: Net, a: bool): Side {
    if a then n.a else n.b
  }

  /** In every run what the peer's application received, followed by what is
      still on the wire, is what this side posted: every request with its id
      and every notification, in order. */
  lemma PostsArrive(steps: seq<Step>, a: bool)
    requires IdsSuffice(Run(steps))
    ensures var n := Run(steps);
            Mine(n, !a).conn.inbox + FlatMap(PostIn, if a then n.ab else n.ba) == Mine(n, a).posted
  {
    ReachableInv(steps);
  }

  /** What `send_request` returns is the first value the peer answered to that
      very request: the peer had received exactly this call under this id, and
      no other call of this side has the id. */
  lemma ResolvedByItsOwnResponse(steps: seq<Step>, a: bool, k: nat)
    requires IdsSuffice(Run(steps))
    requires k < |Mine(Run(steps), a).conn.callers|
    requires Mine(Run(steps), a).conn.callers[k].status.Resolved?
    ensures var me, peer := Mine(Run(steps), a), Mine(Run(steps), !a);
            var c := me.conn.callers[k];
            && FirstAnswer(peer.answers, IdOf(k)) == Some(c.status.value)
            && Req(IdOf(k), c.call) in Requests(peer.conn.inbox)
            && forall j :: 0 <= j < |me.conn.callers| && IdOf(j) == IdOf(k) ==> j == k
  {
    ReachableInv(steps);
    var n := Run(steps);
    var me, peer := Mine(n, a), Mine(n, !a);
    var outgoing, incoming := if a then n.ab else n.ba, if a then n.ba else n.ab;
    assert SideOk(me, peer, outgoing, incoming);
    assert CallerOk(me.conn, me.heard, k);
    FirstAnswerExtends(me.heard, FlatMap(AnswerIn, incoming), IdOf(k));
    forall j | 0 <= j < |me.conn.callers| && IdOf(j) == IdOf(k) ensures j == k {
      if j != k {
        OthersId(j, k);
      }
    }
    FirstAnswerIsAnAnswer(peer.answers, IdOf(k));
    ReceivedRequest(me, peer, outgoing, incoming, k);
  }

  lemma {:induction false} FirstAnswerExtends(heard: seq<Answer>, more: seq<Answer>, id: int)
    requires FirstAnswer(heard, id).Some?
    ensures FirstAnswer(heard + more, id) == FirstAnswer(heard, id)
  {
    if more == [] {
      assert heard + more == heard;
    } else {
      assert (heard + more)[..|heard + more| - 1] == heard + more[..|more| - 1];
      FirstAnswerExtends(heard, more[..|more| - 1], id);
    }
  }

  lemma {:induction false} FirstAnswerIsAnAnswer(answers: seq<Answer>, id: int)
    requires FirstAnswer(answers, id).Some?
    ensures Answers(answers, id)
  {
    var before := answers[..|answers| - 1];
    if FirstAnswer(before, id).Some? {
      FirstAnswerIsAnAnswer(before, id);
      var a :| a in before && a.id == id;
      assert a in answers;
    } else {
      assert answers[|answers| - 1] in answers;
    }
  }

  lemma ReceivedRequest(me: Side, peer: Side, outgoing: seq<Json>, incoming: seq<Json>, k: nat)
    requires SideOk(me, peer, outgoing, incoming) && |me.conn.callers| <= ID_SPACE && k < |me.conn.callers|
    requires Answers(peer.answers, IdOf(k))
    ensures Req(IdOf(k), me.conn.callers[k].call) in Requests(peer.conn.inbox)
  {
    var a :| a in peer.answers && a.id == IdOf(k);
    var r :| r in Requests(peer.conn.inbox) && r.id == IdOf(k);
    assert r in me.sent;
    assert IsCallOf(r, me.conn.callers);
    var j :| 0 <= j < |me.conn.callers| && r == Req(IdOf(j), me.conn.callers[j].call);
    if j != k {
      OthersId(j, k);
    }
  }

  /** A caller still waiting has not been answered: no response that arrived
      while its caller waited was lost. */
  lemma WaitingIsUnanswered(steps: seq<Step>, a: bool, k: nat)
    requires IdsSuffice(Run(steps))
    requires k < |Mine(Run(steps), a).conn.callers|
    requires Mine(Run(steps), a).conn.callers[k].status == Waiting
    ensures !Answers(Mine(Run(steps), a).heard, IdOf(k))
  {
    ReachableInv(steps);
    var n := Run(steps);
    var me := Mine(n, a);
    assert SideOk(me, Mine(n, !a), if a then n.ab else n.ba, if a then n.ba else n.ab);
    assert CallerOk(me.conn, me.heard, k);
  }

  /** Why a request is resolved at most once: no pending entry, on which a
      response could act, belongs to a caller that has been settled. What is
      left are callers that wait and callers that dropped their future. */
  lemma PendingIsUnsettled(steps: seq<Step>, a: bool, id: int)
    requires IdsSuffice(Run(steps)) && id in Mine(Run(steps), a).conn.pending
    ensures var e := Mine(Run(steps), a).conn;
            e.pending[id] < |e.callers| && IdOf(e.pending[id]) == id && !Settled(e.callers[e.pending[id]].status)
  {
    ReachableInv(steps);
  }

  /** A settled caller stays settled the same way, whatever either side does. */
  lemma {:induction false} SettledForGood(steps: seq<Step>, later: seq<Step>, a: bool)
    requires IdsSuffice(Run(steps + later))
    ensures Continues(Mine(Run(steps + later), a).conn, Mine(Run(steps), a).conn)
  {
    if later == [] {
      assert steps + later == steps;
    } else {
      var before, s := later[..|later| - 1], later[|later| - 1];
      assert (steps + later)[..|steps + later| - 1] == steps + before;
      var n := Run(steps + before);
      IdsSufficed(n, s);
      SettledForGood(steps, before, a);
      ReachableInv(steps + before);
      NextContinues(n, s, a);
      ContinuesTrans(Mine(Run(steps), a).conn, Mine(n, a).conn, Mine(Next(n, s), a).conn);
    }
  }

  lemma ContinuesTrans(e: Endpoint, f: Endpoint, g: Endpoint)
    requires Continues(f, e) && Continues(g, f)
    ensures Continues(g, e)
  {
  }

  lemma NextContinues(n: Net, s: Step, a: bool)
    requires PendingOk(Mine(n, a).conn) && UnsentOk(Mine(n, a))
    ensures Continues(Mine(Next(n, s), a).conn, Mine(n, a).conn)
  {
    if s.byA == a {
      ActContinues(Turn(Mine(n, a), if a then n.ab else n.ba, if a then n.ba else n.ab), s.action);
    }
  }

  lemma ActContinues(t: Turn, action: Action)
    requires PendingOk(t.me.conn) && UnsentOk(t.me)
    ensures Continues(Act(t, action).me.conn, t.me.conn)
  {
    var e := t.me.conn;
    match action
    case Begin(call) => EveryOperationContinues(e, call, 0, false, Null);
    case TransmitFails(k) => EveryOperationContinues(e, Call("", Null), k, false, Null);
    case Cancel(k, unlocked) => EveryOperationContinues(e, Call("", Null), k, unlocked && k !in t.me.unsent, Null);
    case Deliver =>
      if t.incoming != [] {
        ReadContinues(e, t.incoming[0]);
      }
    case CloseReader => ClearedContinues(e);
    case _ =>
  }

  // ---- cancellation -----------------------------------------------------

  /** When dropping the future of a waiting call leaves its pending entry: the
      request was not yet sent, so there was no guard, or the guard found the
      map locked. */
  lemma CancelLeavesEntry(steps: seq<Step>, a: bool, k: nat, unlocked: bool)
    requires IdsSuffice(Run(steps)) && k < |Mine(Run(steps), a).conn.callers|
    requires Mine(Run(steps), a).conn.callers[k].status == Waiting
    ensures var me, after := Mine(Run(steps), a), Mine(Next(Run(steps), Step(a, Cancel(k, unlocked))), a);
            && after.conn.callers[k].status == Cancelled
            && (IdOf(k) in after.conn.pending <==> k in me.unsent || !unlocked)
  {
    ReachableInv(steps);
    var me := Mine(Run(steps), a);
    assert CallerOk(me.conn, me.heard, k);
  }

  /** The shortest run that leaves an entry behind: a call dropped before its
      send. */
  lemma CancelBeforeSendLeaks(call: Call)
    ensures var e := Run([Step(true, Begin(call)), Step(true, Cancel(0, true))]).a.conn;
            e.callers == [Caller(call, Cancelled)] && e.pending == map[1 := 0]
  {
    var b, c := Step(true, Begin(call)), Step(true, Cancel(0, true));
    assert [b, c][..1] == [b] && [b][..0] == [];
    assert Run([b]) == Next(Init, b);
  }

  /** Every pending entry of a side belongs to a call that still waits. */
  predicate NoLeak(me: Side) {
    forall id :: id in me.conn.pending ==>
      me.conn.pending[id] < |me.conn.callers| && me.conn.callers[me.conn.pending[id]].status == Waiting
  }

  /** The action does not cancel a waiting call before its send or while the
      map is locked. */
  predicate CleanAction(me: Side, action: Action) {
    action.Cancel? && action.k < |me.conn.callers| && me.conn.callers[action.k].status == Waiting ==>
      action.k !in me.unsent && action.unlocked
  }

  lemma AnsweredLeaksNothing(e: Endpoint, id: int, value: Json)
    requires PendingOk(e)
    ensures forall i :: i in Answered(e, id, value).pending ==>
              i in e.pending && Answered(e, id, value).callers[e.pending[i]] == e.callers[e.pending[i]]
  {
  }

  /** An action of a side without leaks leaves none exactly if it is clean. */
  lemma ActLeaks(t: Turn, action: Action)
    requires ConnOk(t.me.conn, t.me.heard) && NoLeak(t.me)
    requires |Act(t, action).me.conn.callers| <= ID_SPACE
    ensures NoLeak(Act(t, action).me) <==> CleanAction(t.me, action)
  {
    var me, e := t.me, t.me.conn;
    match action
    case Begin(call) =>
      forall id | id in e.pending ensures id != e.nextId {
        OthersId(e.pending[id], |e.callers|);
      }
    case TransmitFails(k) =>
    case Cancel(k, unlocked) =>
      if k < |e.callers| && e.callers[k].status == Waiting {
        assert CallerOk(e, me.heard, k);
        assert forall id :: id in e.pending && id != IdOf(k) ==> e.pending[id] != k;
        var after := Act(t, action).me.conn;
        assert IdOf(k) in after.pending ==> after.pending[IdOf(k)] == k;
      }
    case Deliver =>
      if t.incoming != [] && me.reading {
        match Parse(t.incoming[0])
        case Some(Response(id, result, error)) => AnsweredLeaksNothing(e, id, ValueOf(result, error));
        case _ =>
      }
    case _ =>
  }

  function TurnOf(n: Net, a: bool): Turn {
    if a then Turn(n.a, n.ab, n.ba) else Turn(n.b, n.ba, n.ab)
  }

  predicate CleanStep(n: Net, a: bool, s: Step) {
    s.byA == a ==> CleanAction(Mine(n, a), s.action)
  }

  lemma StepLeaks(n: Net, a: bool, s: Step)
    requires Inv(n) && IdsSuffice(Next(n, s)) && NoLeak(Mine(n, a))
    ensures NoLeak(Mine(Next(n, s), a)) <==> CleanStep(n, a, s)
  {
    if s.byA == a {
      ActLeaks(TurnOf(n, a), s.action);
    }
  }

  function After(steps: seq<Step>, k: nat): Net
    requires k <= |steps|
  {
    Run(steps[..k])
  }

  lemma {:induction false} AfterIsReachable(steps: seq<Step>, k: nat)
    requires k <= |steps| && IdsSuffice(Run(steps))
    ensures IdsSuffice(After(steps, k)) && Inv(After(steps, k))
    ensures k < |steps| ==> After(steps, k + 1) == Next(After(steps, k), steps[k])
    decreases |steps| - k
  {
    if k == |steps| {
      assert steps[..k] == steps;
    } else {
      assert steps[..k + 1][..k] == steps[..k];
      AfterIsReachable(steps, k + 1);
      IdsSufficed(After(steps, k), steps[k]);
    }
    ReachableInv(steps[..k]);
  }

  lemma {:induction false} CleanUpTo(steps: seq<Step>, a: bool, k: nat)
    requires k <= |steps| && IdsSuffice(Run(steps))
    requires forall j :: 0 <= j < k ==> CleanStep(After(steps, j), a, steps[j])
    ensures NoLeak(Mine(After(steps, k), a))
  {
    if k > 0 {
      CleanUpTo(steps, a, k - 1);
      AfterIsReachable(steps, k - 1);
      AfterIsReachable(steps, k);
      StepLeaks(After(steps, k - 1), a, steps[k - 1]);
    }
  }

  lemma UncleanLeaks(steps: seq<Step>, a: bool, k: nat)
    requires k < |steps| && IdsSuffice(Run(steps)) && !CleanStep(After(steps, k), a, steps[k])
    ensures !NoLeak(Mine(After(steps, k), a)) || !NoLeak(Mine(After(steps, k + 1), a))
  {
    AfterIsReachable(steps, k);
    AfterIsReachable(steps, k + 1);
    if NoLeak(Mine(After(steps, k), a)) {
      StepLeaks(After(steps, k), a, steps[k]);
    }
  }

  /** In all of a run the pending entries of a side belong to calls that still
      wait, if and only if the side drops waiting calls only after their send
      and with the map unlocked. */
  lemma NoLeakThroughout(steps: seq<Step>, a: bool)
    requires IdsSuffice(Run(steps))
    ensures (forall k :: 0 <= k <= |steps| ==> NoLeak(Mine(After(steps, k), a))) <==>
            (forall k :: 0 <= k < |steps| ==> CleanStep(After(steps, k), a, steps[k]))
  {
    if k :| 0 <= k < |steps| && !CleanStep(After(steps, k), a, steps[k]) {
      UncleanLeaks(steps, a, k);
    } else {
      forall k | 0 <= k <= |steps| ensures NoLeak(Mine(After(steps, k), a)) {
        CleanUpTo(steps, a, k);
      }
    }
  }

  // ---- the end of the reader --------------------------------------------

  /** When the reader loop ends no call waits any longer. */
  lemma ReaderEndSettlesAll(steps: seq<Step>, a: bool, k: nat)
    requires IdsSuffice(Run(steps)) && Mine(Run(steps), a).reading
    requires k < |Mine(Run(steps), a).conn.callers|
    ensures Mine(Next(Run(steps), Step(a, CloseReader)), a).conn.callers[k].status != Waiting
  {
    ReachableInv(steps);
    var me := Mine(Run(steps), a);
    assert CallerOk(me.conn, me.heard, k);
    assert me.conn.callers[k].status == Waiting ==> Held(me.conn.pending, k);
  }

  /** The actions that end a waiting call once the reader is gone. */
  predicate EndsCall(me: Side, action: Action, k: nat) {
    || (action.TransmitFails? && action.k == k && k in me.unsent)
    || (action.Cancel? && action.k == k)
  }

  lemma LateAct(t: Turn, action: Action, k: nat)
    requires ConnOk(t.me.conn, t.me.heard) && !t.me.reading
    requires |Act(t, action).me.conn.callers| <= ID_SPACE
    requires k < |t.me.conn.callers| && t.me.conn.callers[k].status == Waiting
    ensures Act(t, action).me.conn.callers[k].status == Waiting <==> !EndsCall(t.me, action, k)
  {
    var e := t.me.conn;
    if action.Begin? && e.nextId in e.pending {
      OthersId(e.pending[e.nextId], |e.callers|);
    }
  }

  /** A call made after that waits until its own send fails or its future is
      dropped: no step of either side settles it otherwise. */
  lemma LateCallWaits(steps: seq<Step>, a: bool, k: nat, s: Step)
    requires IdsSuffice(Next(Run(steps), s)) && !Mine(Run(steps), a).reading
    requires k < |Mine(Run(steps), a).conn.callers| && Mine(Run(steps), a).conn.callers[k].status == Waiting
    ensures Mine(Next(Run(steps), s), a).conn.callers[k].status == Waiting <==>
              !(s.byA == a && EndsCall(Mine(Run(steps), a), s.action, k))
  {
    IdsSufficed(Run(steps), s);
    ReachableInv(steps);
    if s.byA == a {
      LateAct(TurnOf(Run(steps), a), s.action, k);
    }
  }
}
