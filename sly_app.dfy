/** The `sly-app` component: it holds the `state` and `data` documents,
    patches them with `merge`, and sends the current `state` (and `context`)
    out over a WebSocket command or an HTTP POST. */
module SlyApp {
  import opened JsValue
  import opened Endpoints

  /** `jsonpatch.applyPatch(document, patch).newDocument`, a library call
      whose code is not part of this model; `None` when it throws. */
  type Patcher = (Json, Json) -> Option<Json>

  /** The two documents after a `merge`, and whether it threw part-way. */
  datatype MergeOutcome = MergeOutcome(state: Json, data: Json, threw: bool)

  /** One `if (payload.x) { this.x = applyPatch(this.x, payload.x) }` step:
      a falsy batch leaves the document alone; `None` when the patch throws. */
  function ApplyBatch(applyPatch: Patcher, doc: Json, batch: Option<Json>): (r: Option<Json>)
    ensures !Truthy(batch) ==> r == Some(doc)
    ensures Truthy(batch) ==> r == applyPatch(doc, batch.value)
  {
    if Truthy(batch) then applyPatch(doc, batch.value) else Some(doc)
  }

  /** What `merge(payload)` leaves in `state` and `data`. Reading a property
      of `null` throws before anything changes; the `state` step runs first,
      so a throw while patching `data` keeps the new `state`. */
  function MergeSpec(applyPatch: Patcher, state: Json, data: Json, payload: Json): (r: MergeOutcome)
    ensures payload.JNull? ==> r == MergeOutcome(state, data, true)
    ensures !payload.JNull? && !Truthy(Get(payload, "state")) ==> r.state == state
    ensures !payload.JNull? && !Truthy(Get(payload, "data")) ==> r.data == data
    ensures r.threw ==> r.data == data
  {
    if payload.JNull? then MergeOutcome(state, data, true)
    else
      match ApplyBatch(applyPatch, state, Get(payload, "state"))
      case None => MergeOutcome(state, data, true)
      case Some(state') =>
        match ApplyBatch(applyPatch, data, Get(payload, "data"))
        case None => MergeOutcome(state', data, true)
        case Some(data') => MergeOutcome(state', data', false)
  }

  /** A payload with neither batch changes nothing and does not throw. */
  lemma MergeWithoutBatchesIsNoOp(applyPatch: Patcher, state: Json, data: Json, payload: Json)
    requires !payload.JNull?
    requires !Truthy(Get(payload, "state")) && !Truthy(Get(payload, "data"))
    ensures MergeSpec(applyPatch, state, data, payload) == MergeOutcome(state, data, false)
  {
  }

  /** `merge(null)` throws a TypeError and changes nothing. */
  lemma MergeNullThrows(applyPatch: Patcher, state: Json, data: Json)
    ensures MergeSpec(applyPatch, state, data, JNull) == MergeOutcome(state, data, true)
  {
  }

  /** Only a `state` batch: `state` is patched and `data` stays as it was. */
  lemma MergeStateBatchOnly(applyPatch: Patcher, state: Json, data: Json, payload: Json)
    requires !payload.JNull?
    requires Truthy(Get(payload, "state")) && !Truthy(Get(payload, "data"))
    ensures var r := MergeSpec(applyPatch, state, data, payload);
      match applyPatch(state, payload.fields["state"])
      case Some(patched) => r == MergeOutcome(patched, data, false)
      case None => r == MergeOutcome(state, data, true)
  {
  }

  /** Only a `data` batch: `data` is patched and `state` stays as it was. */
  lemma MergeDataBatchOnly(applyPatch: Patcher, state: Json, data: Json, payload: Json)
    requires !payload.JNull?
    requires !Truthy(Get(payload, "state")) && Truthy(Get(payload, "data"))
    ensures var r := MergeSpec(applyPatch, state, data, payload);
      match applyPatch(data, payload.fields["data"])
      case Some(patched) => r == MergeOutcome(state, patched, false)
      case None => r == MergeOutcome(state, data, true)
  {
  }

  /** The new `state` depends on the old `state` and the payload only,
      never on `data`, even when patching `data` throws. */
  lemma MergeStateIgnoresData(applyPatch: Patcher, state: Json, data1: Json, data2: Json, payload: Json)
    ensures MergeSpec(applyPatch, state, data1, payload).state
         == MergeSpec(applyPatch, state, data2, payload).state
  {
  }

  /** The new `data` depends on the old `data` and the payload only, once
      the `state` step has gone through. */
  lemma MergeDataIgnoresState(applyPatch: Patcher, state1: Json, state2: Json, data: Json, payload: Json)
    requires !payload.JNull?
    requires ApplyBatch(applyPatch, state1, Get(payload, "state")).Some?
    requires ApplyBatch(applyPatch, state2, Get(payload, "state")).Some?
    ensures MergeSpec(applyPatch, state1, data, payload).data
         == MergeSpec(applyPatch, state2, data, payload).data
    ensures MergeSpec(applyPatch, state1, data, payload).threw
         == MergeSpec(applyPatch, state2, data, payload).threw
  {
  }

  /** A payload object carrying the given batches, each key present only
      when its batch is. */
  function PayloadOf(stateBatch: Option<Json>, dataBatch: Option<Json>): (p: Json)
    ensures p.JObj?
    ensures Get(p, "state") == stateBatch && Get(p, "data") == dataBatch
  {
    JObj((if stateBatch.Some? then map["state" := stateBatch.value] else map[])
       + (if dataBatch.Some? then map["data" := dataBatch.value] else map[]))
  }

  /** The new `state` does not depend on the `data` batch, whatever it is
      and whether or not patching with it throws. */
  lemma MergeStateIgnoresDataBatch(applyPatch: Patcher, state: Json, data: Json,
                                   stateBatch: Option<Json>, dataBatch1: Option<Json>, dataBatch2: Option<Json>)
    ensures MergeSpec(applyPatch, state, data, PayloadOf(stateBatch, dataBatch1)).state
         == MergeSpec(applyPatch, state, data, PayloadOf(stateBatch, dataBatch2)).state
  {
  }

  /** Once the `state` step succeeds, the new `data` and whether `merge`
      throws do not depend on the `state` batch. */
  lemma MergeDataIgnoresStateBatch(applyPatch: Patcher, state: Json, data: Json,
                                   stateBatch1: Option<Json>, stateBatch2: Option<Json>, dataBatch: Option<Json>)
    requires ApplyBatch(applyPatch, state, stateBatch1).Some?
    requires ApplyBatch(applyPatch, state, stateBatch2).Some?
    ensures MergeSpec(applyPatch, state, data, PayloadOf(stateBatch1, dataBatch)).data
         == MergeSpec(applyPatch, state, data, PayloadOf(stateBatch2, dataBatch)).data
    ensures MergeSpec(applyPatch, state, data, PayloadOf(stateBatch1, dataBatch)).threw
         == MergeSpec(applyPatch, state, data, PayloadOf(stateBatch2, dataBatch)).threw
  {
  }

  /** Both batches present and both patches going through: each document
      is its own old value patched with its own batch. */
  lemma MergeBoth(applyPatch: Patcher, state: Json, data: Json, stateBatch: Json, dataBatch: Json)
    requires Truthy(Some(stateBatch)) && Truthy(Some(dataBatch))
    requires applyPatch(state, stateBatch).Some? && applyPatch(data, dataBatch).Some?
    ensures MergeSpec(applyPatch, state, data, PayloadOf(Some(stateBatch), Some(dataBatch)))
         == MergeOutcome(applyPatch(state, stateBatch).value, applyPatch(data, dataBatch).value, false)
  {
  }

  /** An empty batch is truthy, so it is still handed to the patcher. */
  lemma MergeEmptyBatchIsApplied(applyPatch: Patcher, state: Json, data: Json)
    requires applyPatch(state, JArr([])).Some?
    ensures MergeSpec(applyPatch, state, data, JObj(map["state" := JArr([])])).state
         == applyPatch(state, JArr([])).value
  {
    assert Truthy(Get(JObj(map["state" := JArr([])]), "state"));
  }

  /** What `onmessage` does with a message as written: `merge(event.data)`
      on the raw text. A string has no `state` or `data` property. */
  function RawDelivery(applyPatch: Patcher, state: Json, data: Json, raw: string): (r: MergeOutcome)
    ensures !r.threw
  {
    MergeSpec(applyPatch, state, data, JStr(raw))
  }

  /** `merge(JSON.parse(event.data))`, with the parser as a parameter;
      `None` from the parser is the SyntaxError `JSON.parse` throws. */
  function DecodedDelivery(applyPatch: Patcher, parse: string -> Option<Json>,
                           state: Json, data: Json, raw: string): (r: MergeOutcome)
    ensures parse(raw).None? ==> r == MergeOutcome(state, data, true)
    ensures r.threw ==> r.data == data
  {
    match parse(raw)
    case None => MergeOutcome(state, data, true)
    case Some(payload) => MergeSpec(applyPatch, state, data, payload)
  }

  /** Every WebSocket message, whatever it holds, leaves both documents
      unchanged when delivered raw. */
  lemma RawDeliveryIsNoOp(applyPatch: Patcher, state: Json, data: Json, raw: string)
    ensures RawDelivery(applyPatch, state, data, raw) == MergeOutcome(state, data, false)
  {
  }

  /** A message whose text decodes to `{"state": batch}` patches `state`
      when decoded first, where the raw delivery keeps the old one. */
  lemma DecodedDeliveryAppliesStateBatch(applyPatch: Patcher, parse: string -> Option<Json>,
                                         state: Json, data: Json, raw: string, batch: Json)
    requires parse(raw) == Some(JObj(map["state" := batch]))
    requires Truthy(Some(batch)) && applyPatch(state, batch).Some?
    ensures DecodedDelivery(applyPatch, parse, state, data, raw)
         == MergeOutcome(applyPatch(state, batch).value, data, false)
    ensures RawDelivery(applyPatch, state, data, raw).state == state
  {
    var payload := JObj(map["state" := batch]);
    assert Get(payload, "state") == Some(batch);
    assert Get(payload, "data") == None;
  }

  /** The WebSocket command frame: `{command, state}` and nothing else. */
  function CommandMessage(command: string, state: Json): (m: Json)
    ensures m.JObj? && m.fields.Keys == {"command", "state"}
    ensures m.fields["command"] == JStr(command) && m.fields["state"] == state
  {
    JObj(map["command" := JStr(command), "state" := state])
  }

  /** The body `http` posts: `{state, context}` and nothing else. */
  function HttpBody(state: Json, context: Json): (b: Json)
    ensures b.JObj? && b.fields.Keys == {"state", "context"}
    ensures b.fields["state"] == state && b.fields["context"] == context
  {
    JObj(map["state" := state, "context" := context])
  }

  /** A POST request: its URL and, when there is one, its JSON body. */
  datatype Request = Request(url: string, body: Option<Json>)

  class Component {
    /** The `url` prop: the base address of the application's backend. */
    const url: string
    const applyPatch: Patcher
    var state: Json
    var data: Json
    var context: Json
    /** The address of the open WebSocket; `None` while `this.ws` is null. */
    var ws: Option<string>

    /** The component's initial `data()`: empty documents, no socket. */
    constructor (url: string, applyPatch: Patcher)
      ensures this.url == url && this.applyPatch == applyPatch
      ensures state == JObj(map[]) && data == JObj(map[]) && context == JObj(map[])
      ensures ws == None
    {
      this.url := url;
      this.applyPatch := applyPatch;
      state := JObj(map[]);
      data := JObj(map[]);
      context := JObj(map[]);
      ws := None;
    }

    /** `command(name)`: the frame sent on the socket, carrying the current
        `state` and no `context`; `None` when `this.ws` is still null and
        reading `this.ws.send` throws a TypeError. */
    method Command(command: string) returns (sent: Option<Json>)
      ensures sent.Some? <==> ws.Some?
      ensures sent.Some? ==> sent.value == CommandMessage(command, state)
    {
      if ws.None? {
        return None;
      }
      sent := Some(CommandMessage(command, state));
    }

    /** `http(command)`: the request posted to the formatted URL with the
        current `state` and `context`. Sending it changes nothing; the answer
        is merged later, by `OnHttpResponse`. */
    method Http(command: string) returns (req: Request)
      ensures req.url == RequestUrl(url, command)
      ensures req.body == Some(HttpBody(state, context))
    {
      req := Request(RequestUrl(url, command), Some(HttpBody(state, context)));
    }

    /** The `.then((json) => this.merge(json))` of `http`: the backend's
        answer is merged into the documents as they are when it arrives. */
    method OnHttpResponse(response: Json) returns (threw: bool)
      modifies this`state, this`data
      ensures MergeOutcome(state, data, threw) == MergeSpec(applyPatch, old(state), old(data), response)
    {
      threw := Merge(response);
    }

    /** `getJson(path)`: a bodiless POST to the formatted URL plus `path`. */
    method GetJson(path: string) returns (req: Request)
      ensures StartsWith(req.url, StripTrailingSlash(url)) && EndsWith(req.url, path)
      ensures req == Request(RequestUrl(url, path), None)
    {
      req := Request(RequestUrl(url, path), None);
    }

    /** `merge(payload)`: patch `state`, then `data`, each only when its
        batch is truthy; stop at the first throw. */
    method Merge(payload: Json) returns (threw: bool)
      modifies this`state, this`data
      ensures MergeOutcome(state, data, threw) == MergeSpec(applyPatch, old(state), old(data), payload)
    {
      if payload.JNull? {
        return true;
      }
      var batch := Get(payload, "state");
      if Truthy(batch) {
        var next := applyPatch(state, batch.value);
        if next.None? {
          return true;
        }
        state := next.value;
      }
      batch := Get(payload, "data");
      if Truthy(batch) {
        var next := applyPatch(data, batch.value);
        if next.None? {
          return true;
        }
        data := next.value;
      }
      threw := false;
    }

    /** The `new WebSocket(...)` of `created`, on the page's protocol. */
    method OpenSocket(pageProtocol: string)
      modifies this`ws
      ensures ws == Some(WsUrl(pageProtocol, url))
    {
      ws := Some(WsUrl(pageProtocol, url));
    }

    /** `ws.onmessage` as written: the raw text goes to `merge`. */
    method OnMessage(raw: string) returns (threw: bool)
      modifies this`state, this`data
      ensures MergeOutcome(state, data, threw) == RawDelivery(applyPatch, old(state), old(data), raw)
      ensures state == old(state) && data == old(data) && !threw
    {
      threw := Merge(JStr(raw));
      RawDeliveryIsNoOp(applyPatch, old(state), old(data), raw);
    }

    /** `ws.onmessage` decoding the text before merging it. */
    method OnMessageDecoded(raw: string, parse: string -> Option<Json>) returns (threw: bool)
      modifies this`state, this`data
      ensures MergeOutcome(state, data, threw) == DecodedDelivery(applyPatch, parse, old(state), old(data), raw)
    {
      var decoded := parse(raw);
      if decoded.None? {
        return true;
      }
      threw := Merge(decoded.value);
    }
  }
}
