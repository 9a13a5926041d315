/** Bidirectional JSON-RPC over a transport (loopal-ipc/src/connection.rs). */
module Connection {
  import opened Prelude
  import opened JsonValues
  import opened JsonRpc

  // ---- request ids ------------------------------------------------------

  const ID_SPACE: int := 0x1_0000_0000_0000_0000

  /** `fetch_add` on an `AtomicI64` wraps around. */
  function WrapId(i: int): (id: int)
    ensures IsI64(id)
  {
    (i - I64_MIN) % ID_SPACE + I64_MIN
  }

  /** The id of the `k`-th request of a connection, counted from 0. */
  function IdOf(k: nat): int {
    WrapId(k + 1)
  }

  /** Ids repeat exactly after 2^64 requests. */
  lemma IdsRepeat(j: nat, k: nat)
    ensures IdOf(j) == IdOf(k) <==> (k - j) % ID_SPACE == 0
  {
    var x, y := j + 1 - I64_MIN, k + 1 - I64_MIN;
    assert x == ID_SPACE * (x / ID_SPACE) + x % ID_SPACE;
    assert y == ID_SPACE * (y / ID_SPACE) + y % ID_SPACE;
    assert k - j == y - x;
  }

  lemma IdsDistinct(j: nat, k: nat)
    requires j < k < ID_SPACE
    ensures IdOf(j) != IdOf(k)
  {
  }

  /** The first request that gets an old id again. */
  lemma FirstIdReturns()
    ensures IdOf(0) == IdOf(ID_SPACE) == 1
  {
    IdsRepeat(0, ID_SPACE);
  }

  lemma NextIdOf(k: nat)
    ensures WrapId(IdOf(k) + 1) == IdOf(k + 1)
  {
  }

  // ---- one endpoint -----------------------------------------------------

  datatype Call = Call(name: string, params: Json)

  /** Where a call of `send_request` stands. */
  datatype Status = Waiting | Resolved(value: Json) | Failed | Cancelled

  datatype Caller = Caller(call: Call, status: Status)

  /** `pending` maps an id to the caller that holds the receiving end. */
  datatype Endpoint = Endpoint(nextId: int, pending: map<int, nat>, callers: seq<Caller>,
                               inbox: seq<IncomingMessage>)

  const Fresh := Endpoint(1, map[], [], [])

  /** The sender's message reaches its caller, unless the caller dropped the
      receiving end. Nothing here keeps a caller from being settled twice. */
  function Settle(callers: seq<Caller>, k: nat, status: Status): (r: seq<Caller>)
    ensures |r| == |callers|
  {
    if k < |callers| && callers[k].status != Cancelled then callers[k := callers[k].(status := status)] else callers
  }

  /** Taking the next id and inserting the sender; a sender already under that
      id is dropped and its caller fails. */
  function Begun(e: Endpoint, call: Call): Endpoint {
    var callers := if e.nextId in e.pending then Settle(e.callers, e.pending[e.nextId], Failed) else e.callers;
    e.(nextId := WrapId(e.nextId + 1), pending := e.pending[e.nextId := |e.callers|],
       callers := callers + [Caller(call, Waiting)])
  }

  function SendFailed(e: Endpoint, k: nat): Endpoint {
    e.(pending := e.pending - {IdOf(k)}, callers := Settle(e.callers, k, Failed))
  }

  /** Dropping the future. The guard clears the entry only if the request was
      sent and the map is not locked. */
  function Dropped(e: Endpoint, k: nat, cleaned: bool): Endpoint {
    e.(pending := if cleaned then e.pending - {IdOf(k)} else e.pending, callers := Settle(e.callers, k, Cancelled))
  }

  function Answered(e: Endpoint, id: int, value: Json): Endpoint {
    if id in e.pending
    then e.(pending := e.pending - {id}, callers := Settle(e.callers, e.pending[id], Resolved(value)))
    else e
  }

  /** One turn of the reader loop. */
  function Read(e: Endpoint, data: Json): Endpoint {
    match Parse(data)
    case None => e
    case Some(Response(id, result, error)) => Answered(e, id, ValueOf(result, error))
    case Some(m) => e.(inbox := e.inbox + [m])
  }

  function ReadAll(e: Endpoint, frames: seq<Json>): Endpoint {
    if frames == [] then e else Read(ReadAll(e, frames[..|frames| - 1]), frames[|frames| - 1])
  }

  /** The end of the reader loop drops all senders. */
  function Cleared(e: Endpoint): Endpoint {
    e.(pending := map[], callers := SendersDropped(e.callers, e.pending))
  }

  predicate Held(pending: map<int, nat>, k: nat) {
    exists id :: id in pending && pending[id] == k
  }

  function SendersDropped(callers: seq<Caller>, pending: map<int, nat>): seq<Caller> {
    seq(|callers|, k requires 0 <= k < |callers| =>
      if callers[k].status != Cancelled && Held(pending, k) then callers[k].(status := Failed) else callers[k])
  }

  /** Returned to its caller. */
  predicate Settled(status: Status) {
    status.Resolved? || status.Failed?
  }

  /** The next id is that of the next request, and a pending entry belongs to
      the request of its id, whose caller has not been settled. */
  predicate PendingOk(e: Endpoint) {
    && e.nextId == IdOf(|e.callers|)
    && forall id :: id in e.pending ==>
         && e.pending[id] < |e.callers| && IdOf(e.pending[id]) == id
         && !Settled(e.callers[e.pending[id]].status)
  }

  lemma BegunPending(e: Endpoint, call: Call)
    requires PendingOk(e)
    ensures PendingOk(Begun(e, call))
  {
    NextIdOf(|e.callers|);
  }

  /** Removing the sender before using it, or with it, keeps every entry's
      caller unsettled. */
  lemma EveryOperationKeepsPending(e: Endpoint, k: nat, cleaned: bool, id: int, value: Json)
    requires PendingOk(e)
    ensures PendingOk(SendFailed(e, k)) && PendingOk(Dropped(e, k, cleaned))
    ensures PendingOk(Answered(e, id, value)) && PendingOk(Cleared(e))
  {
  }

  lemma ReadPending(e: Endpoint, data: Json)
    requires PendingOk(e)
    ensures PendingOk(Read(e, data))
  {
    match Parse(data)
    case Some(Response(id, result, error)) => EveryOperationKeepsPending(e, 0, false, id, ValueOf(result, error));
    case _ =>
  }

  lemma {:induction false} ReadAllPending(e: Endpoint, frames: seq<Json>)
    requires PendingOk(e)
    ensures PendingOk(ReadAll(e, frames))
  {
    if frames != [] {
      ReadAllPending(e, frames[..|frames| - 1]);
      ReadPending(ReadAll(e, frames[..|frames| - 1]), frames[|frames| - 1]);
    }
  }

  class Connection {
    var nextId: int
    var pending: map<int, nat>
    var callers: seq<Caller>
    var inbox: seq<IncomingMessage>

    function Value(): Endpoint
      reads this
    {
      Endpoint(nextId, pending, callers, inbox)
    }

    ghost predicate Valid()
      reads this
    {
      PendingOk(Value())
    }

    constructor ()
      ensures Valid() && Value() == Fresh
    {
      nextId, pending, callers, inbox := 1, map[], [], [];
    }

    /** The first half of `send_request`: id, pending entry, wire message. */
    method BeginRequest(call: Call) returns (id: int, data: Json)
      requires Valid()
      modifies this`nextId, this`pending, this`callers
      ensures Valid()
      ensures Value() == Begun(old(Value()), call)
      ensures |callers| == |old(callers)| + 1 && callers[|old(callers)|] == Caller(call, Waiting)
      ensures pending == old(pending)[id := |old(callers)|] && nextId == if id < I64_MAX then id + 1 else I64_MIN
      ensures forall k :: 0 <= k < |old(callers)| ==>
                callers[k] == if id in old(pending) && k == old(pending)[id] && old(callers)[k].status != Cancelled
                              then old(callers)[k].(status := Failed) else old(callers)[k]
      ensures id == old(nextId) && data == EncodeRequest(id, call.name, call.params)
    {
      BegunPending(Value(), call);
      id := nextId;
      nextId := WrapId(nextId + 1);
      var k := |callers|;
      if id in pending {
        callers := Settle(callers, pending[id], Failed);
      }
      callers := callers + [Caller(call, Waiting)];
      pending := pending[id := k];
      data := EncodeRequest(id, call.name, call.params);
    }

    method TransportFailed(k: nat)
      requires Valid()
      modifies this`pending, this`callers
      ensures Valid()
      ensures Value() == SendFailed(old(Value()), k)
      ensures pending == old(pending) - {IdOf(k)} && |callers| == |old(callers)|
      ensures forall j :: 0 <= j < |callers| ==>
                callers[j] == if j == k && old(callers)[k].status != Cancelled
                              then old(callers)[k].(status := Failed) else old(callers)[j]
    {
      EveryOperationKeepsPending(Value(), k, false, 0, Null);
      pending := pending - {IdOf(k)};
      callers := Settle(callers, k, Failed);
    }

    /** The caller drops its future; `cleaned` says whether the guard existed
        and found the map unlocked. */
    method DropRequest(k: nat, cleaned: bool)
      requires Valid()
      modifies this`pending, this`callers
      ensures Valid()
      ensures Value() == Dropped(old(Value()), k, cleaned)
      ensures pending == (if cleaned then old(pending) - {IdOf(k)} else old(pending))
      ensures |callers| == |old(callers)|
      ensures forall j :: 0 <= j < |callers| ==>
                callers[j] == if j == k then old(callers)[k].(status := Cancelled) else old(callers)[j]
    {
      EveryOperationKeepsPending(Value(), k, cleaned, 0, Null);
      if cleaned {
        pending := pending - {IdOf(k)};
      }
      callers := Settle(callers, k, Cancelled);
    }

    method OnData(data: Json)
      requires Valid()
      modifies this`pending, this`callers, this`inbox
      ensures Valid()
      ensures Value() == Read(old(Value()), data)
      ensures match Parse(data)
              case None => pending == old(pending) && callers == old(callers) && inbox == old(inbox)
              case Some(Response(id, result, error)) =>
                && inbox == old(inbox) && pending == old(pending) - {id} && |callers| == |old(callers)|
                && forall k :: 0 <= k < |callers| ==>
                     callers[k] == if id in old(pending) && k == old(pending)[id] && old(callers)[k].status != Cancelled
                                   then old(callers)[k].(status := Resolved(ValueOf(result, error)))
                                   else old(callers)[k]
              case Some(m) => pending == old(pending) && callers == old(callers) && inbox == old(inbox) + [m]
    {
      ReadPending(Value(), data);
      var msg := Parse(data);
      if msg.None? {
        return;
      }
      match msg.value
      case Response(id, result, error) =>
        var value := if error.Some? then ErrorValue(error.value) else if result.Some? then result.value else Null;
        assert id !in pending ==> pending - {id} == pending;
        if id in pending {
          var sender := pending[id];
          pending := pending - {id};
          callers := Settle(callers, sender, Resolved(value));
        }
      case m => inbox := inbox + [m];
    }

    /** The reader loop over the frames received until the end of the stream. */
    method ReaderLoop(frames: seq<Json>)
      requires Valid()
      modifies this`pending, this`callers, this`inbox
      ensures Valid()
      ensures Value() == Cleared(ReadAll(old(Value()), frames))
      ensures pending == map[]
      ensures forall k :: 0 <= k < |callers| ==>
                var was := ReadAll(old(Value()), frames);
                callers[k] == if was.callers[k].status != Cancelled && exists id <- was.pending :: was.pending[id] == k
                              then was.callers[k].(status := Failed) else was.callers[k]
    {
      for i := 0 to |frames|
        invariant Valid() && Value() == ReadAll(old(Value()), frames[..i])
      {
        assert frames[..i + 1][..i] == frames[..i];
        OnData(frames[i]);
      }
      assert frames[..|frames|] == frames;
      callers := SendersDropped(callers, pending);
      pending := map[];
    }
  }

  // ---- each request is resolved at most once ----------------------------

  /** `f` continues `e`: callers that no longer wait are left as they are. */
  predicate Continues(f: Endpoint, e: Endpoint) {
    |e.callers| <= |f.callers| &&
    forall k :: 0 <= k < |e.callers| ==>
      f.callers[k].call == e.callers[k].call &&
      (e.callers[k].status != Waiting ==> f.callers[k].status == e.callers[k].status)
  }

  lemma ClearedContinues(e: Endpoint)
    requires PendingOk(e)
    ensures Continues(Cleared(e), e)
  {
  }

  lemma ReadContinues(e: Endpoint, data: Json)
    requires PendingOk(e)
    ensures Continues(Read(e, data), e)
  {
  }

  /** A caller is settled at most once, because its entry is gone by then: no
      operation touches a settled caller. A failed send is reported by the call
      itself, which must not have got its answer; only a waiting call can be
      dropped. */
  lemma EveryOperationContinues(e: Endpoint, call: Call, k: nat, cleaned: bool, data: Json)
    requires PendingOk(e)
    ensures Continues(Begun(e, call), e) && Continues(Read(e, data), e) && Continues(Cleared(e), e)
    ensures k < |e.callers| && !e.callers[k].status.Resolved? ==> Continues(SendFailed(e, k), e)
    ensures k < |e.callers| && e.callers[k].status == Waiting ==> Continues(Dropped(e, k, cleaned), e)
  {
    ReadContinues(e, data);
    ClearedContinues(e);
  }

  /** A response nobody waits for changes nothing. */
  lemma UnknownResponse(e: Endpoint, id: int, result: Json)
    requires IsI64(id) && id !in e.pending
    ensures Read(e, EncodeResponse(id, result)) == e
  {
    ResponseRoundTrip(id, result);
  }

  /** After one response to an id a second one changes nothing. */
  lemma DuplicateResponse(e: Endpoint, id: int, first: Json, second: Json)
    requires IsI64(id)
    ensures var once := Read(e, EncodeResponse(id, first));
            Read(once, EncodeResponse(id, second)) == once
  {
    ResponseRoundTrip(id, first);
    UnknownResponse(Read(e, EncodeResponse(id, first)), id, second);
  }
}
