/** JSON-RPC 2.0 frames and the broker's dispatch table for frames coming up a tunnel. */
module JsonRpc {
  import opened Prelude

  /** Field names: the ones the protocol uses, and any other. */
  datatype Key =
    | JSONRPC | ID | METHOD | PARAMS | RESULT | ERROR | CODE | MESSAGE | ALLOWED
    | OtherKey(name: string)

  datatype Json =
    | Null
    | Bool(b: bool)
    | Num(n: int)
    | Str(s: string)
    | Arr(items: seq<Json>)
    | Obj(fields: map<Key, Json>)

  function Get(j: Json, key: Key): Option<Json>
  {
    if j.Obj? && key in j.fields then Some(j.fields[key]) else None
  }

  // ---------- Hooks ----------

  datatype HookError = NotFound | Denied | Execution | Internal

  datatype HookFailure = HookFailure(kind: HookError, message: string)

  /** What the operator's hooks would answer at this moment. */
  datatype Hooks = Hooks(
    initialize: Result<Json, HookFailure>,
    toolsList: Result<Json, HookFailure>,
    toolsCall: Json -> Result<Json, HookFailure>,
    quotaCheck: Result<bool, HookFailure>,
    quotaRecord: Json -> Result<(), HookFailure>)

  datatype RpcError = RpcError(code: int, message: string)

  const METHOD_NOT_FOUND: int := -32601

  function ErrorCode(kind: HookError): (code: int)
    ensures code >= 1000
  {
    match kind
    case NotFound => 1404
    case Internal => 1500
    case Execution => 1502
    case Denied => 1603
  }

  function MapFailure<T>(r: Result<T, HookFailure>, wrap: T -> Json): Result<Json, RpcError>
  {
    match r
    case Ok(v) => Ok(wrap(v))
    case Err(f) => Err(RpcError(ErrorCode(f.kind), f.message))
  }

  // ---------- Dispatch ----------

  predicate IsRequestMethod(m: string)
  {
    m in {"initialize", "tools/list", "tools/call", "quota/check", "quota/update"}
  }

  predicate IsNotificationMethod(m: string)
  {
    m in {"stream/textDelta", "stream/activity", "stream/toolCall", "stream/toolResult",
          "turn/end", "context/compacted", "heartbeat"}
  }

  /** Delegates a request method to its one hook. */
  function CallHook(m: string, params: Json, hooks: Hooks): Result<Json, RpcError>
    requires IsRequestMethod(m)
  {
    if m == "initialize" then MapFailure(hooks.initialize, v => v)
    else if m == "tools/list" then MapFailure(hooks.toolsList, v => v)
    else if m == "tools/call" then MapFailure(hooks.toolsCall(params), v => v)
    else if m == "quota/check" then MapFailure(hooks.quotaCheck, v => Obj(map[ALLOWED := Bool(v)]))
    else MapFailure(hooks.quotaRecord(params), v => Obj(map[]))
  }

  function Response(id: Json, r: Result<Json, RpcError>): Json
  {
    match r
    case Ok(v) => Obj(map[JSONRPC := Str("2.0"), ID := id, RESULT := v])
    case Err(e) =>
      Obj(map[JSONRPC := Str("2.0"), ID := id,
              ERROR := Obj(map[CODE := Num(e.code), MESSAGE := Str(e.message)])])
  }

  /** One frame from the agent; `frame` is None when the text is not JSON. */
  function HandleMessage(frame: Option<Json>, hooks: Hooks): Option<Json>
  {
    if frame.None? || Get(frame.value, METHOD).None? || !Get(frame.value, METHOD).value.Str? then None
    else
      var m := Get(frame.value, METHOD).value.s;
      var id := Get(frame.value, ID);
      var params := if Get(frame.value, PARAMS).Some? then Get(frame.value, PARAMS).value else Null;
      if IsRequestMethod(m) then
        if id.None? then None else Some(Response(id.value, CallHook(m, params, hooks)))
      else if IsNotificationMethod(m) then None
      else if id.None? then None
      else Some(Response(id.value, Err(RpcError(METHOD_NOT_FOUND, "method not found: " + m))))
  }

  /** A response per sections 4.1 and 5 of JSON-RPC 2.0: the version, the id it answers, no method, and
      either a result or an error. */
  predicate WellFormedResponse(r: Json, id: Json)
  {
    && Get(r, JSONRPC) == Some(Str("2.0")) && Get(r, ID) == Some(id)
    && Get(r, METHOD).None? && Get(r, PARAMS).None?
    && (Get(r, RESULT).Some? <==> Get(r, ERROR).None?)
  }

  predicate CarriesResult(r: Json, v: Json)
  {
    Get(r, RESULT) == Some(v) && Get(r, ERROR).None?
  }

  predicate CarriesError(r: Json, code: int, message: string)
  {
    Get(r, ERROR) == Some(Obj(map[CODE := Num(code), MESSAGE := Str(message)])) && Get(r, RESULT).None?
  }

  /** The failure of a hook, under the code of its kind and in the hook's own words. */
  predicate Reports(r: Json, f: HookFailure)
  {
    match f.kind
    case NotFound => CarriesError(r, 1404, f.message)
    case Internal => CarriesError(r, 1500, f.message)
    case Execution => CarriesError(r, 1502, f.message)
    case Denied => CarriesError(r, 1603, f.message)
  }

  /** What a method is answered, method by method; any other is unknown. */
  predicate Answered(m: string, params: Json, hooks: Hooks, r: Json)
  {
    if m == "initialize" then
      if hooks.initialize.Ok? then CarriesResult(r, hooks.initialize.value) else Reports(r, hooks.initialize.error)
    else if m == "tools/list" then
      if hooks.toolsList.Ok? then CarriesResult(r, hooks.toolsList.value) else Reports(r, hooks.toolsList.error)
    else if m == "tools/call" then
      var call := hooks.toolsCall(params);
      if call.Ok? then CarriesResult(r, call.value) else Reports(r, call.error)
    else if m == "quota/check" then
      if hooks.quotaCheck.Ok? then CarriesResult(r, Obj(map[ALLOWED := Bool(hooks.quotaCheck.value)]))
      else Reports(r, hooks.quotaCheck.error)
    else if m == "quota/update" then
      var record := hooks.quotaRecord(params);
      if record.Ok? then CarriesResult(r, Obj(map[])) else Reports(r, record.error)
    else CarriesError(r, -32601, "method not found: " + m)
  }

  /** The methods that are never answered, id or not. */
  predicate FireAndForget(m: string)
  {
    || m == "stream/textDelta" || m == "stream/activity" || m == "stream/toolCall" || m == "stream/toolResult"
    || m == "turn/end" || m == "context/compacted" || m == "heartbeat"
  }

  predicate HasMethod(frame: Option<Json>, m: string)
  {
    frame.Some? && Get(frame.value, METHOD) == Some(Str(m))
  }

  /**
   * Exactly the frames that carry a string method and an id are answered, except the fire-and-forget
   * methods; an answer is a response to the id of the frame it answers, and carries what the one hook
   * of the method returned, or that the method is unknown.
   */
  lemma {:induction false} DispatchAnswers(frame: Option<Json>, hooks: Hooks)
    ensures HandleMessage(frame, hooks).Some? <==>
      exists m :: HasMethod(frame, m) && Get(frame.value, ID).Some? && !FireAndForget(m)
    ensures HandleMessage(frame, hooks).Some? ==>
      var r, m := HandleMessage(frame, hooks).value, Get(frame.value, METHOD).value.s;
      && WellFormedResponse(r, Get(frame.value, ID).value)
      && Answered(m, if Get(frame.value, PARAMS).Some? then Get(frame.value, PARAMS).value else Null, hooks, r)
  {
    if frame.Some? && Get(frame.value, METHOD).Some? && Get(frame.value, METHOD).value.Str? {
      var m := Get(frame.value, METHOD).value.s;
      assert HasMethod(frame, m);
      MethodsDisjoint(m);
      if HandleMessage(frame, hooks).Some? {
        var id := Get(frame.value, ID).value;
        var params := if Get(frame.value, PARAMS).Some? then Get(frame.value, PARAMS).value else Null;
        if IsRequestMethod(m) {
          ResponseShape(id, CallHook(m, params, hooks));
        } else {
          ResponseShape(id, Err(RpcError(METHOD_NOT_FOUND, "method not found: " + m)));
        }
      }
    }
  }

  lemma {:induction false} MethodsDisjoint(m: string)
    ensures !(IsRequestMethod(m) && IsNotificationMethod(m)) && (IsNotificationMethod(m) <==> FireAndForget(m))
  {
    if IsRequestMethod(m) {
      assert m[0] == 'i' || m[0] == 't' || m[0] == 'q';
      if m[0] == 't' {
        assert m[1] == 'o';
      }
    }
  }

  lemma {:induction false} ResponseShape(id: Json, r: Result<Json, RpcError>)
    ensures WellFormedResponse(Response(id, r), id)
    ensures r.Ok? ==> CarriesResult(Response(id, r), r.value)
    ensures r.Err? ==> CarriesError(Response(id, r), r.error.code, r.error.message)
  {
  }
}
