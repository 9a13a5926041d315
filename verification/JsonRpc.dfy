/** JSON-RPC 2.0 messages (loopal-ipc/src/jsonrpc.rs; JSON-RPC 2.0
    Specification, sections 4 and 5). */
module JsonRpc {
  import opened Prelude
  import opened JsonValues

  const I64_MIN: int := -0x8000_0000_0000_0000
  const I64_MAX: int := 0x7fff_ffff_ffff_ffff

  predicate IsI64(i: int) {
    I64_MIN <= i <= I64_MAX
  }

  datatype RpcError = RpcError(code: int, message: string, data: Option<Json>)

  datatype IncomingMessage =
    | Request(id: int, methodName: string, params: Json)
    | Notification(methodName: string, params: Json)
    | Response(id: int, result: Option<Json>, error: Option<RpcError>)

  // ---- decoding ---------------------------------------------------------

  /** An optional member: an explicit `null` reads as absent. */
  function Member(fields: map<string, Json>, key: string): Option<Json> {
    if key in fields && !fields[key].Null? then Some(fields[key]) else None
  }

  /** The error object; a missing or mistyped member fails the message. */
  function ReadError(v: Json): Option<RpcError> {
    if !v.Obj? then None
    else
      var code, message := Member(v.fields, "code"), Member(v.fields, "message");
      if code.Some? && code.value.Num? && code.value.n.Int? && IsI64(code.value.n.i)
         && message.Some? && message.value.Str?
      then Some(RpcError(code.value.n.i, message.value.s, Member(v.fields, "data")))
      else None
  }

  datatype RawMessage = RawMessage(id: Option<Json>, methodName: Option<string>, result: Option<Json>,
                                   error: Option<RpcError>, params: Json)

  function ReadRaw(v: Json): Option<RawMessage> {
    if !v.Obj? then None
    else
      var methodName, error := Member(v.fields, "method"), Member(v.fields, "error");
      if methodName.Some? && !methodName.value.Str? then None
      else if error.Some? && ReadError(error.value).None? then None
      else
        Some(RawMessage(Member(v.fields, "id"),
                        if methodName.Some? then Some(methodName.value.s) else None,
                        Member(v.fields, "result"),
                        if error.Some? then ReadError(error.value) else None,
                        if "params" in v.fields then v.fields["params"] else Null))
  }

  /** `as_i64().unwrap_or(0)` */
  function IdOfNumber(n: Number): int {
    if n.Int? && IsI64(n.i) then n.i else 0
  }

  function Classify(raw: RawMessage): Option<IncomingMessage> {
    match raw.methodName
    case Some(methodName) =>
      (match raw.id
       case Some(Num(n)) => Some(Request(IdOfNumber(n), methodName, raw.params))
       case Some(_) => None
       case None => Some(Notification(methodName, raw.params)))
    case None =>
      match raw.id
      case Some(Num(n)) => Some(Response(IdOfNumber(n), raw.result, raw.error))
      case _ => None
  }

  function Parse(v: Json): Option<IncomingMessage> {
    var raw := ReadRaw(v);
    if raw.Some? then Classify(raw.value) else None
  }

  // ---- encoding ---------------------------------------------------------

  function IdValue(id: int): Json {
    Num(Int(id))
  }

  function EncodeRequest(id: int, methodName: string, params: Json): Json {
    Obj(map["jsonrpc" := Str("2.0"), "id" := IdValue(id), "method" := Str(methodName), "params" := params])
  }

  function EncodeNotification(methodName: string, params: Json): Json {
    Obj(map["jsonrpc" := Str("2.0"), "method" := Str(methodName), "params" := params])
  }

  function EncodeResponse(id: int, result: Json): Json {
    Obj(map["jsonrpc" := Str("2.0"), "id" := IdValue(id), "result" := result])
  }

  function EncodeError(id: int, code: int, message: string): Json {
    Obj(map["jsonrpc" := Str("2.0"), "id" := IdValue(id),
            "error" := Obj(map["code" := Num(Int(code)), "message" := Str(message)])])
  }

  // ---- parsing undoes encoding ------------------------------------------

  lemma RequestRoundTrip(id: int, methodName: string, params: Json)
    requires IsI64(id)
    ensures Parse(EncodeRequest(id, methodName, params)) == Some(Request(id, methodName, params))
  {
    var f := EncodeRequest(id, methodName, params).fields;
    assert Member(f, "error") == None;
    assert Member(f, "method") == Some(Str(methodName));
  }

  lemma NotificationRoundTrip(methodName: string, params: Json)
    ensures Parse(EncodeNotification(methodName, params)) == Some(Notification(methodName, params))
  {
    var f := EncodeNotification(methodName, params).fields;
    assert Member(f, "error") == None && Member(f, "id") == None;
    assert Member(f, "method") == Some(Str(methodName));
  }

  /** A `null` result comes back as an absent one. */
  lemma ResponseRoundTrip(id: int, result: Json)
    requires IsI64(id)
    ensures Parse(EncodeResponse(id, result)) == Some(Response(id, if result.Null? then None else Some(result), None))
  {
    var f := EncodeResponse(id, result).fields;
    assert Member(f, "error") == None && Member(f, "method") == None;
    assert Member(f, "id") == Some(IdValue(id));
  }

  lemma ErrorRoundTrip(id: int, code: int, message: string)
    requires IsI64(id) && IsI64(code)
    ensures Parse(EncodeError(id, code, message)) == Some(Response(id, None, Some(RpcError(code, message, None))))
  {
    var f := EncodeError(id, code, message).fields;
    assert Member(f, "method") == None && Member(f, "result") == None;
    assert Member(f, "id") == Some(IdValue(id));
    var e := f["error"].fields;
    assert Member(e, "code") == Some(Num(Int(code)));
    assert Member(e, "message") == Some(Str(message)) && Member(e, "data") == None;
  }

  // ---- what is read, and what is written --------------------------------

  predicate Has(v: Json, key: string) {
    v.Obj? && key in v.fields && v.fields[key] != Null
  }

  predicate IsErrorObject(v: Json) {
    && Has(v, "code") && v.fields["code"].Num? && v.fields["code"].n.Int? && IsI64(v.fields["code"].n.i)
    && Has(v, "message") && v.fields["message"].Str?
  }

  /** Which values are messages, and of which kind: a method with an id is a
      request and without one a notification; an id alone is a response. */
  lemma ParsesExactly(v: Json)
    ensures Parse(v).Some? <==>
              && v.Obj? && (Has(v, "method") || Has(v, "id"))
              && (Has(v, "method") ==> v.fields["method"].Str?) && (Has(v, "id") ==> v.fields["id"].Num?)
              && (Has(v, "error") ==> IsErrorObject(v.fields["error"]))
    ensures Parse(v).Some? ==>
              && (Parse(v).value.Response? <==> !Has(v, "method"))
              && (Parse(v).value.Notification? <==> Has(v, "method") && !Has(v, "id"))
  {
  }

  /** A number that is no 64-bit integer reads as the id 0. */
  lemma ParsedMembers(v: Json)
    requires Parse(v).Some?
    ensures var m, params := Parse(v).value, if "params" in v.fields then v.fields["params"] else Null;
            && (!m.Notification? ==> v.fields["id"] == Num(Int(m.id)) || m.id == 0)
            && (Has(v, "id") && v.fields["id"].n.Int? && IsI64(v.fields["id"].n.i) ==> m.id == v.fields["id"].n.i)
            && (!m.Response? ==> v.fields["method"] == Str(m.methodName) && m.params == params)
    ensures var m := Parse(v).value;
            m.Response? ==>
              && (m.result.Some? <==> Has(v, "result")) && (m.error.Some? <==> Has(v, "error"))
              && (m.result.Some? ==> m.result.value == v.fields["result"])
              && (m.error.Some? ==>
                    var e, fields := m.error.value, v.fields["error"].fields;
                    && fields["code"] == Num(Int(e.code)) && fields["message"] == Str(e.message)
                    && (e.data.Some? <==> Has(v.fields["error"], "data"))
                    && (e.data.Some? ==> e.data.value == fields["data"]))
  {
    ParsesExactly(v);
  }

  /** Every message written is a JSON-RPC 2.0 object of its kind: a notification
      has no id, an answer either a result or an error. */
  lemma WrittenKinds(id: int, text: string, value: Json, code: int)
    ensures forall v <- [EncodeRequest(id, text, value), EncodeNotification(text, value),
                         EncodeResponse(id, value), EncodeError(id, code, text)] ::
              v.Obj? && "jsonrpc" in v.fields && v.fields["jsonrpc"] == Str("2.0")
    ensures EncodeRequest(id, text, value).fields.Keys == {"jsonrpc", "id", "method", "params"}
    ensures EncodeNotification(text, value).fields.Keys == {"jsonrpc", "method", "params"}
    ensures EncodeResponse(id, value).fields.Keys == {"jsonrpc", "id", "result"}
    ensures EncodeError(id, code, text).fields.Keys == {"jsonrpc", "id", "error"}
  {
  }

  // ---- what the caller of a request gets --------------------------------

  /** `to_value(err)`: `data` is skipped when absent. */
  function ErrorValue(e: RpcError): Json {
    var base := map["code" := Num(Int(e.code)), "message" := Str(e.message)];
    Obj(if e.data.Some? then base["data" := e.data.value] else base)
  }

  function ValueOf(result: Option<Json>, error: Option<RpcError>): Json {
    if error.Some? then ErrorValue(error.value)
    else if result.Some? then result.value
    else Null
  }

  /** What one side answers is what the other side's caller receives. */
  lemma AnswerTravels(id: int, result: Json)
    requires IsI64(id)
    ensures var m := Parse(EncodeResponse(id, result));
            m.Some? && m.value.Response? && m.value.id == id && ValueOf(m.value.result, m.value.error) == result
  {
    ResponseRoundTrip(id, result);
  }
  /** An error reaches the caller as an object with its code and message, and
      with its data if it has any; it goes before a result. */
  lemma ErrorTravels(e: RpcError, result: Option<Json>)
    ensures var v := ValueOf(result, Some(e));
            && v.Obj? && v.fields.Keys == {"code", "message"} + (if e.data.Some? then {"data"} else {})
            && v.fields["code"] == Num(Int(e.code)) && v.fields["message"] == Str(e.message)
            && (e.data.Some? ==> v.fields["data"] == e.data.value)
    ensures IsI64(e.code) && e.data != Some(Null) ==> ReadError(ValueOf(result, Some(e))) == Some(e)
  {
    var f := ErrorValue(e).fields;
    assert Member(f, "data") == e.data || e.data == Some(Null);
  }
}
