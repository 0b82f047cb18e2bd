/**
 * The flows resource: create a flow (and publish it when asked), replace
 * its JSON asset, publish, deprecate, preview, read and list flows, and
 * `deploy`, which creates or updates a flow and then publishes it at most
 * once.
 *
 * The operations that make more than one call are specified by functions
 * of the calls made before them (`CreateSpec`, `UpdateAssetSpec`,
 * `DeploySpec`): the calls they append and what they return, given the
 * server's answers.
 */
module Flows {
  import opened Wrappers
  import opened JsonValues
  import opened Client

  // ---------------------------------------------------------------------
  // Input models
  // ---------------------------------------------------------------------

  datatype CreateFlowInput = CreateFlowInput(
    wabaId: string,
    name: string,
    categories: Option<seq<string>>,
    flowJson: Fields,
    endpointUri: Option<string>,
    publish: bool)

  datatype UpdateFlowAssetInput = UpdateFlowAssetInput(flowId: string, jsonData: Option<Fields>, file: Option<seq<bv8>>)

  datatype PreviewFlowInput = PreviewFlowInput(
    flowId: string,
    interactive: Option<bool>,
    fields: Option<string>,
    params: Option<Fields>)

  datatype DeployFlowInput = DeployFlowInput(
    flowJson: Fields,
    name: string,
    wabaId: string,
    endpointUri: Option<string>,
    publish: bool,
    flowId: Option<string>,
    categories: Option<seq<string>>)

  // ---------------------------------------------------------------------
  // publish and deprecate
  // ---------------------------------------------------------------------

  function PublishCall(client: WhatsAppClient, flowId: string): Call {
    client.RequestCall("POST", flowId + "/publish", Some(JObj([])), None, None, None, [])
  }

  /** `publish(PublishFlowInput(flow_id=...))`: an empty JSON object is posted. */
  method Publish(client: WhatsAppClient, flowId: string) returns (r: Outcome<Json>)
    modifies client.http
    ensures client.http.closed == old(client.http.closed)
    ensures client.http.calls == old(client.http.calls) + [PublishCall(client, flowId)]
    ensures r == Finish(client.LastResponse(), client.parseJson)
  {
    r := client.Post(flowId + "/publish", Some(JObj([])), None, None);
  }

  /** `deprecate(DeprecateFlowInput(flow_id=...))`. */
  method Deprecate(client: WhatsAppClient, flowId: string) returns (r: Outcome<Json>)
    modifies client.http
    ensures client.http.closed == old(client.http.closed)
    ensures client.http.calls == old(client.http.calls) +
      [client.RequestCall("POST", flowId + "/deprecate", Some(JObj([])), None, None, None, [])]
    ensures r == Finish(client.LastResponse(), client.parseJson)
  {
    r := client.Post(flowId + "/deprecate", Some(JObj([])), None, None);
  }

  // ---------------------------------------------------------------------
  // create
  // ---------------------------------------------------------------------

  /** `input.categories or ["OTHER"]`: the categories sent are never empty. */
  function Categories(categories: Option<seq<string>>): (r: seq<string>)
    ensures |r| >= 1
    ensures categories.Some? && categories.value != [] ==> r == categories.value
    ensures categories.None? || categories.value == [] ==> r == ["OTHER"]
  {
    if categories.Some? && categories.value != [] then categories.value else ["OTHER"]
  }

  /** The form fields of `create`: the name, and the categories as JSON text. */
  function CreateData(input: CreateFlowInput): seq<(string, FormValue)> {
    var cs := Categories(input.categories);
    [("name", Text(input.name)), ("categories", JsonText(JArr(seq(|cs|, i requires 0 <= i < |cs| => JStr(cs[i])))))]
  }

  /** The flow JSON is uploaded as the file `flow.json`; the endpoint URI is not sent. */
  function CreateFiles(input: CreateFlowInput): seq<(string, FilePart)> {
    [("flow_json", FilePart("flow.json", EncodedJson(JObj(input.flowJson)), "application/json"))]
  }

  function CreateCall(client: WhatsAppClient, input: CreateFlowInput): Call {
    client.RequestCall("POST", input.wabaId + "/flows", None, None, Some(CreateData(input)), Some(CreateFiles(input)), [])
  }

  /**
   * `if input.publish and resp.get("id"): PublishFlowInput(flow_id=resp["id"])`:
   * the id to publish, if any. `get` needs a dict, and the input model
   * accepts only a string id. An id is published only when publishing was
   * asked for, and it is the response's own non-empty string id.
   */
  function PublishTarget(publish: bool, resp: Json): (r: Result<Option<string>>)
    ensures !publish ==> r == Ok(None)
    ensures r.Ok? && r.value.Some? ==>
      publish && resp.JObj? && Get(resp.fields, "id") == Some(JStr(r.value.value)) && r.value.value != ""
    ensures (publish && resp.JObj? && Get(resp.fields, "id").Some? && Get(resp.fields, "id").value.JStr? &&
             Get(resp.fields, "id").value.s != "") ==> r == Ok(Some(Get(resp.fields, "id").value.s))
    ensures r.Err? <==> (publish && (!resp.JObj? ||
      (Get(resp.fields, "id").Some? && Truthy(Get(resp.fields, "id").value) && !Get(resp.fields, "id").value.JStr?)))
    ensures r.Err? ==> r.fault == AttributeError || r.fault == ValidationError("flow_id")
  {
    if !publish then Ok(None)
    else if !resp.JObj? then Err(AttributeError)
    else
      match Get(resp.fields, "id")
      case None => Ok(None)
      case Some(id) =>
        if !Truthy(id) then Ok(None)
        else if id.JStr? then Ok(Some(id.s))
        else Err(ValidationError("flow_id"))
  }

  /**
   * The calls `create` adds after `before`, and what it returns: the create
   * call and then at most one more, a publish call, made only when
   * publishing was asked for and the response carries a non-empty string id,
   * which is the id published. Without `publish` it is the create call alone
   * with its response; a success is always the create call's response.
   */
  function CreateSpec(client: WhatsAppClient, input: CreateFlowInput, before: seq<Call>): (r: (seq<Call>, Outcome<Json>))
    ensures |before| + 1 <= |r.0| <= |before| + 2 && r.0[..|before| + 1] == before + [CreateCall(client, input)]
    ensures |r.0| == |before| + 2 ==> (
      var first := Finish(client.http.serve(before + [CreateCall(client, input)]), client.parseJson);
      input.publish && first.Success? && first.value.JObj? &&
      Get(first.value.fields, "id").Some? && Get(first.value.fields, "id").value.JStr? &&
      Get(first.value.fields, "id").value.s != "" &&
      r.0[|before| + 1] == PublishCall(client, Get(first.value.fields, "id").value.s))
    ensures !input.publish ==>
      r == (before + [CreateCall(client, input)], Finish(client.http.serve(before + [CreateCall(client, input)]), client.parseJson))
    ensures r.1.Success? ==> r.1 == Finish(client.http.serve(before + [CreateCall(client, input)]), client.parseJson)
  {
    var c1 := before + [CreateCall(client, input)];
    assert c1[..|before| + 1] == c1;
    var first := Finish(client.http.serve(c1), client.parseJson);
    if first.Failure? then (c1, first)
    else
      match PublishTarget(input.publish, first.value)
      case Err(f) => (c1, Failure(PyError(f)))
      case Ok(None) => (c1, first)
      case Ok(Some(id)) =>
        var c2 := c1 + [PublishCall(client, id)];
        assert c2[..|before| + 1] == c1;
        var second := Finish(client.http.serve(c2), client.parseJson);
        (c2, if second.Failure? then second else first)
  }

  /** `create(input)`. */
  method Create(client: WhatsAppClient, input: CreateFlowInput) returns (r: Outcome<Json>)
    modifies client.http
    ensures client.http.closed == old(client.http.closed)
    ensures (client.http.calls, r) == CreateSpec(client, input, old(client.http.calls))
  {
    r := client.Post(input.wabaId + "/flows", None, Some(CreateData(input)), Some(CreateFiles(input)));
    if r.Failure? {
      return;
    }
    var target := PublishTarget(input.publish, r.value);
    match target
    case Err(f) =>
      r := Failure(PyError(f));
    case Ok(None) =>
    case Ok(Some(id)) =>
      var published := Publish(client, id);
      if published.Failure? {
        r := published;
      }
  }

  // ---------------------------------------------------------------------
  // update_asset
  // ---------------------------------------------------------------------

  /** The file `update_asset` uploads: the JSON data if non-empty, else the bytes if non-empty, else ValueError. */
  function AssetSource(input: UpdateFlowAssetInput): (r: Result<FileContent>)
    ensures r.Err? <==> (input.jsonData.None? || input.jsonData.value == []) && (input.file.None? || input.file.value == [])
    ensures r.Err? ==> r.fault == ValueError
    ensures input.jsonData.Some? && input.jsonData.value != [] ==> r == Ok(EncodedJson(JObj(input.jsonData.value)))
  {
    if input.jsonData.Some? && input.jsonData.value != [] then Ok(EncodedJson(JObj(input.jsonData.value)))
    else if input.file.Some? && input.file.value != [] then Ok(Bytes(input.file.value))
    else Err(ValueError)
  }

  function AssetCall(client: WhatsAppClient, flowId: string, content: FileContent): Call {
    client.RequestCall("POST", flowId + "/assets", None, None,
                       Some([("name", Text("flow.json")), ("asset_type", Text("FLOW_JSON"))]),
                       Some([("file", FilePart("flow.json", content, "application/json"))]), [])
  }

  /**
   * The calls `update_asset` adds after `before`, and what it returns:
   * nothing is sent and ValueError is raised when neither the JSON data nor
   * the file has content; otherwise one upload, of the JSON data when it is
   * non-empty, and its response.
   */
  function UpdateAssetSpec(client: WhatsAppClient, input: UpdateFlowAssetInput, before: seq<Call>): (r: (seq<Call>, Outcome<Json>))
    ensures r.0 == before <==>
      (input.jsonData.None? || input.jsonData.value == []) && (input.file.None? || input.file.value == [])
    ensures r.0 == before ==> r.1 == Failure(PyError(ValueError))
    ensures r.0 != before ==>
      r.0 == before + [AssetCall(client, input.flowId, AssetSource(input).value)] &&
      r.1 == Finish(client.http.serve(r.0), client.parseJson)
    ensures input.jsonData.Some? && input.jsonData.value != [] ==>
      r.0 == before + [AssetCall(client, input.flowId, EncodedJson(JObj(input.jsonData.value)))]
  {
    match AssetSource(input)
    case Err(f) => (before, Failure(PyError(f)))
    case Ok(content) =>
      var c := before + [AssetCall(client, input.flowId, content)];
      assert |c| != |before|;
      (c, Finish(client.http.serve(c), client.parseJson))
  }

  /** `update_asset(input)`: the ValueError is raised before any request. */
  method UpdateAsset(client: WhatsAppClient, input: UpdateFlowAssetInput) returns (r: Outcome<Json>)
    modifies client.http
    ensures client.http.closed == old(client.http.closed)
    ensures (client.http.calls, r) == UpdateAssetSpec(client, input, old(client.http.calls))
  {
    var content: FileContent;
    if input.jsonData.Some? && input.jsonData.value != [] {
      content := EncodedJson(JObj(input.jsonData.value));
    } else if input.file.Some? && input.file.value != [] {
      content := Bytes(input.file.value);
    } else {
      return Failure(PyError(ValueError));
    }
    r := client.Post(input.flowId + "/assets", None,
                     Some([("name", Text("flow.json")), ("asset_type", Text("FLOW_JSON"))]),
                     Some([("file", FilePart("flow.json", content, "application/json"))]));
  }

  // ---------------------------------------------------------------------
  // preview, get, list
  // ---------------------------------------------------------------------

  /** The candidate parameters of `preview`; `input.params` is not among them. */
  function PreviewEntries(input: PreviewFlowInput): seq<(string, Option<Json>)> {
    [("interactive", if input.interactive.Some? then Some(JBool(input.interactive.value)) else None),
     ("fields", StrIfGiven(input.fields))]
  }

  function PreviewParams(input: PreviewFlowInput): Fields {
    Present(PreviewEntries(input))
  }

  /** The conditional assignments of `preview`. */
  method BuildPreviewParams(input: PreviewFlowInput) returns (params: Fields)
    ensures params == PreviewParams(input)
  {
    ghost var es := PreviewEntries(input);
    params := PutIfPresent([], "interactive", if input.interactive.Some? then Some(JBool(input.interactive.value)) else None);
    assert params == PresentUpTo(es, 1);
    params := PutIfPresent(params, "fields", StrIfGiven(input.fields));
    PresentUpToSpec(es, 2);
    assert es[..2] == es;
  }

  /**
   * `preview` sends `interactive` whenever it is given (false included),
   * `fields` only when non-empty, no query parameters when neither is, and
   * never the input's own `params`.
   */
  lemma PreviewParamsSpec(input: PreviewFlowInput, params: Option<Fields>)
    ensures Get(PreviewParams(input), "interactive") ==
      if input.interactive.Some? then Some(JBool(input.interactive.value)) else None
    ensures Get(PreviewParams(input), "fields") == StrIfGiven(input.fields)
    ensures NoneIfEmpty(PreviewParams(input)).None? <==> input.interactive.None? && !Given(input.fields)
    ensures PreviewParams(input.(params := params)) == PreviewParams(input)
  {
    var es := PreviewEntries(input);
    PresentGet(es, 0);
    PresentGet(es, 1);
    PresentEmpty(es);
    assert (forall i :: 0 <= i < |es| ==> es[i].1.None?) <==> es[0].1.None? && es[1].1.None?;
  }

  /** `preview(input)`. */
  method Preview(client: WhatsAppClient, input: PreviewFlowInput) returns (r: Outcome<Json>)
    modifies client.http
    ensures client.http.closed == old(client.http.closed)
    ensures client.http.calls == old(client.http.calls) +
      [client.RequestCall("GET", input.flowId + "/preview", None, NoneIfEmpty(PreviewParams(input)), None, None, [])]
    ensures r == Finish(client.LastResponse(), client.parseJson)
  {
    var params := BuildPreviewParams(input);
    r := client.Get(input.flowId + "/preview", if params == [] then None else Some(JObj(params)));
  }

  /** `get(flow_id, fields=...)`: the flow id itself is the path; `fields` only when non-empty. */
  method GetFlow(client: WhatsAppClient, flowId: string, fields: Option<string>) returns (r: Outcome<Json>)
    modifies client.http
    ensures client.http.closed == old(client.http.closed)
    ensures client.http.calls == old(client.http.calls) +
      [client.RequestCall("GET", flowId, None, if Given(fields) then Some(JObj([("fields", JStr(fields.value))])) else None, None, None, [])]
    ensures r == Finish(client.LastResponse(), client.parseJson)
  {
    var params := if Given(fields) then Some(JObj([("fields", JStr(fields.value))])) else None;
    r := client.Get(flowId, params);
  }

  function ListEntries(limit: Option<int>, after: Option<string>): seq<(string, Option<Json>)> {
    [("limit", if limit.Some? then Some(JInt(limit.value)) else None), ("after", StrIfGiven(after))]
  }

  function ListParams(limit: Option<int>, after: Option<string>): Fields {
    Present(ListEntries(limit, after))
  }

  /** The conditional assignments of `list`. */
  method BuildListParams(limit: Option<int>, after: Option<string>) returns (params: Fields)
    ensures params == ListParams(limit, after)
  {
    ghost var es := ListEntries(limit, after);
    params := PutIfPresent([], "limit", if limit.Some? then Some(JInt(limit.value)) else None);
    assert params == PresentUpTo(es, 1);
    params := PutIfPresent(params, "after", StrIfGiven(after));
    PresentUpToSpec(es, 2);
    assert es[..2] == es;
  }

  /** `list` sends `limit` whenever it is given (0 included), `after` only when non-empty. */
  lemma ListParamsSpec(limit: Option<int>, after: Option<string>)
    ensures Get(ListParams(limit, after), "limit") == if limit.Some? then Some(JInt(limit.value)) else None
    ensures Get(ListParams(limit, after), "after") == StrIfGiven(after)
    ensures NoneIfEmpty(ListParams(limit, after)).None? <==> limit.None? && !Given(after)
  {
    var es := ListEntries(limit, after);
    PresentGet(es, 0);
    PresentGet(es, 1);
    PresentEmpty(es);
    assert (forall i :: 0 <= i < |es| ==> es[i].1.None?) <==> es[0].1.None? && es[1].1.None?;
  }

  /** `list(waba_id, limit=..., after=...)`. */
  method List(client: WhatsAppClient, wabaId: string, limit: Option<int>, after: Option<string>) returns (r: Outcome<Json>)
    modifies client.http
    ensures client.http.closed == old(client.http.closed)
    ensures client.http.calls == old(client.http.calls) +
      [client.RequestCall("GET", wabaId + "/flows", None, NoneIfEmpty(ListParams(limit, after)), None, None, [])]
    ensures r == Finish(client.LastResponse(), client.parseJson)
  {
    var params := BuildListParams(limit, after);
    r := client.Get(wabaId + "/flows", if params == [] then None else Some(JObj(params)));
  }

  // ---------------------------------------------------------------------
  // deploy
  // ---------------------------------------------------------------------

  /** The `create` input `deploy` builds: never publishing by itself. */
  function DeployCreateInput(input: DeployFlowInput): CreateFlowInput {
    CreateFlowInput(input.wabaId, input.name, input.categories, input.flowJson, input.endpointUri, false)
  }

  /** The `update_asset` input `deploy` builds from a given flow id. */
  function DeployAssetInput(input: DeployFlowInput): UpdateFlowAssetInput
    requires input.flowId.Some?
  {
    UpdateFlowAssetInput(input.flowId.value, Some(input.flowJson), None)
  }

  /**
   * `input.flow_id or result.get("id", "")`: a given flow id wins; otherwise
   * the response's id, or "" when it has none, and a response that is not a
   * dict raises AttributeError.
   */
  function DeployFlowId(input: DeployFlowInput, result: Json): (r: Result<Json>)
    ensures Given(input.flowId) ==> r == Ok(JStr(input.flowId.value))
    ensures r.Err? <==> !Given(input.flowId) && !result.JObj?
    ensures r.Err? ==> r.fault == AttributeError
    ensures !Given(input.flowId) && result.JObj? ==>
      r == Ok(if Get(result.fields, "id").Some? then Get(result.fields, "id").value else JStr(""))
  {
    if Given(input.flowId) then Ok(JStr(input.flowId.value))
    else if !result.JObj? then Err(AttributeError)
    else Ok(GetOr(result.fields, "id", JStr("")))
  }

  /** `if input.publish and flow_id: PublishFlowInput(flow_id=flow_id)`. */
  function DeployPublishTarget(publish: bool, flowId: Json): Result<Option<string>> {
    if publish && Truthy(flowId) then
      if flowId.JStr? then Ok(Some(flowId.s)) else Err(ValidationError("flow_id"))
    else Ok(None)
  }

  /**
   * `{**result, "flow_id": flow_id, "published": input.publish}`; `**` needs
   * a dict. The result is the inner response with `flow_id` and `published`
   * set and every other key kept.
   */
  function DeployResult(result: Json, flowId: Json, publish: bool): (r: Outcome<Json>)
    ensures r.Success? <==> result.JObj?
    ensures r.Failure? ==> r.error == PyError(TypeError)
    ensures r.Success? ==> (
      r.value.JObj? &&
      Get(r.value.fields, "published") == Some(JBool(publish)) &&
      Get(r.value.fields, "flow_id") == Some(flowId) &&
      forall k :: k != "published" && k != "flow_id" ==> Get(r.value.fields, k) == Get(result.fields, k))
  {
    if !result.JObj? then Failure(PyError(TypeError))
    else
      var f1 := Put(result.fields, "flow_id", flowId);
      GetPutAll(result.fields, "flow_id", flowId);
      GetPutAll(f1, "published", JBool(publish));
      Success(JObj(Put(f1, "published", JBool(publish))))
  }

  /**
   * What `deploy` does once its first step has answered: a failed first step
   * is returned as it is; a success is the first step's response with
   * `flow_id` and `published` added.
   */
  function DeployFinish(client: WhatsAppClient, input: DeployFlowInput, c1: seq<Call>, first: Outcome<Json>): (r: (seq<Call>, Outcome<Json>))
    ensures first.Failure? ==> r == (c1, first)
    ensures r.1.Success? ==>
      first.Success? && DeployFlowId(input, first.value).Ok? &&
      r.1 == DeployResult(first.value, DeployFlowId(input, first.value).value, input.publish)
  {
    if first.Failure? then (c1, first)
    else
      match DeployFlowId(input, first.value)
      case Err(f) => (c1, Failure(PyError(f)))
      case Ok(flowId) =>
        match DeployPublishTarget(input.publish, flowId)
        case Err(f) => (c1, Failure(PyError(f)))
        case Ok(None) => (c1, DeployResult(first.value, flowId, input.publish))
        case Ok(Some(id)) =>
          var c2 := c1 + [PublishCall(client, id)];
          var second := Finish(client.http.serve(c2), client.parseJson);
          (c2, if second.Failure? then second else DeployResult(first.value, flowId, input.publish))
  }

  /** The first step of `deploy`: `update_asset` for a given flow id, else `create` without publishing. */
  function DeployFirst(client: WhatsAppClient, input: DeployFlowInput, before: seq<Call>): (seq<Call>, Outcome<Json>) {
    if Given(input.flowId) then UpdateAssetSpec(client, DeployAssetInput(input), before)
    else CreateSpec(client, DeployCreateInput(input), before)
  }

  /**
   * The calls `deploy` adds after `before`, and what it returns. The first
   * call uploads the flow JSON as an asset when a flow id is given (and with
   * an empty flow JSON nothing is sent and ValueError is raised); otherwise
   * it creates the flow without publishing. At most one publish follows,
   * only when publishing was asked for and only with a non-empty id; a given
   * flow id is the one published.
   */
  function DeploySpec(client: WhatsAppClient, input: DeployFlowInput, before: seq<Call>): (r: (seq<Call>, Outcome<Json>))
    ensures |before| <= |r.0| <= |before| + 2 && r.0[..|before|] == before
    ensures Given(input.flowId) && input.flowJson == [] ==> r == (before, Failure(PyError(ValueError)))
    ensures Given(input.flowId) && |r.0| > |before| ==>
      r.0[|before|] == AssetCall(client, input.flowId.value, EncodedJson(JObj(input.flowJson)))
    ensures !Given(input.flowId) ==>
      |r.0| > |before| && r.0[|before|] == CreateCall(client, DeployCreateInput(input)) &&
      !DeployCreateInput(input).publish
    ensures |r.0| == |before| + 2 ==>
      input.publish && exists id: string :: id != "" && r.0[|before| + 1] == PublishCall(client, id)
    ensures |r.0| == |before| + 2 && Given(input.flowId) ==> r.0[|before| + 1] == PublishCall(client, input.flowId.value)
    ensures var first := DeployFirst(client, input, before).1;
      (first.Failure? ==> r.1 == first) &&
      (r.1.Success? ==>
        first.Success? && DeployFlowId(input, first.value).Ok? &&
        r.1 == DeployResult(first.value, DeployFlowId(input, first.value).value, input.publish))
  {
    var (c1, first) := DeployFirst(client, input, before);
    DeployFirstCalls(client, input, before);
    DeployFinishExtends(client, input, c1, first);
    var (calls, out) := DeployFinish(client, input, c1, first);
    assert calls[..|c1|] == c1;
    assert |c1| > |before| ==> calls[|before|] == c1[|before|];
    assert calls[..|before|] == c1[..|before|] == before;
    assert |calls| == |before| + 2 ==> |c1| == |before| + 1;
    (calls, out)
  }

  /** `deploy(input)`. */
  method Deploy(client: WhatsAppClient, input: DeployFlowInput) returns (r: Outcome<Json>)
    modifies client.http
    ensures client.http.closed == old(client.http.closed)
    ensures (client.http.calls, r) == DeploySpec(client, input, old(client.http.calls))
  {
    var result: Outcome<Json>;
    if Given(input.flowId) {
      result := UpdateAsset(client, DeployAssetInput(input));
    } else {
      result := Create(client, DeployCreateInput(input));
    }
    ghost var c1 := client.http.calls;
    if result.Failure? {
      return result;
    }
    var flowId := DeployFlowId(input, result.value);
    if flowId.Err? {
      return Failure(PyError(flowId.fault));
    }
    var target := DeployPublishTarget(input.publish, flowId.value);
    match target
    case Err(f) =>
      r := Failure(PyError(f));
    case Ok(None) =>
      r := DeployResult(result.value, flowId.value, input.publish);
    case Ok(Some(id)) =>
      var published := Publish(client, id);
      r := if published.Failure? then published else DeployResult(result.value, flowId.value, input.publish);
    assert (client.http.calls, r) == DeployFinish(client, input, c1, result);
  }

  /** After its first step, `deploy` adds at most the publish call, and none after a failure. */
  lemma DeployFinishExtends(client: WhatsAppClient, input: DeployFlowInput, c1: seq<Call>, first: Outcome<Json>)
    ensures var (calls, _) := DeployFinish(client, input, c1, first);
      |c1| <= |calls| <= |c1| + 1 && calls[..|c1|] == c1 && (first.Failure? ==> calls == c1)
    ensures var (calls, _) := DeployFinish(client, input, c1, first);
      |calls| == |c1| + 1 ==>
        input.publish && exists id: string :: id != "" && calls[|c1|] == PublishCall(client, id)
    ensures var (calls, _) := DeployFinish(client, input, c1, first);
      |calls| == |c1| + 1 && Given(input.flowId) ==> calls[|c1|] == PublishCall(client, input.flowId.value)
  {
    if first.Success? {
      match DeployFlowId(input, first.value)
      case Err(_) =>
      case Ok(flowId) =>
        match DeployPublishTarget(input.publish, flowId)
        case Err(_) =>
        case Ok(None) =>
        case Ok(Some(id)) =>
          assert id != "" && input.publish;
          assert (c1 + [PublishCall(client, id)])[..|c1|] == c1;
          assert (c1 + [PublishCall(client, id)])[|c1|] == PublishCall(client, id);
    }
  }

  /** The first step makes one call, the asset upload or the create, unless the asset has no content. */
  lemma DeployFirstCalls(client: WhatsAppClient, input: DeployFlowInput, before: seq<Call>)
    ensures var (c1, first) := DeployFirst(client, input, before);
      (Given(input.flowId) && input.flowJson == [] ==> c1 == before && first == Failure(PyError(ValueError))) &&
      (Given(input.flowId) && input.flowJson != [] ==>
        c1 == before + [AssetCall(client, input.flowId.value, EncodedJson(JObj(input.flowJson)))]) &&
      (!Given(input.flowId) ==> c1 == before + [CreateCall(client, DeployCreateInput(input))])
  {
  }
}
