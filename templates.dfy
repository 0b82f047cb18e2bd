/**
 * The templates resource: list, create and delete message templates of a
 * WhatsApp Business Account. All three address
 * `{business_account_id}/message_templates`; the request parameters and
 * body are dicts filled by successive conditional assignments.
 *
 * The response models (`TemplateListResponse`, `TemplateCreateResponse`,
 * `TemplateDeleteResponse`) are passed in as their `model_validate`.
 */
module Templates {
  import opened Wrappers
  import opened JsonValues
  import opened Client

  datatype TemplateListInput = TemplateListInput(
    businessAccountId: string,
    before: Option<string>,
    after: Option<string>,
    limit: Option<int>,
    order: Option<string>,
    status: Option<string>,
    name: Option<string>,
    category: Option<string>,
    language: Option<string>)

  datatype TemplateCreateInput = TemplateCreateInput(
    businessAccountId: string,
    name: string,
    language: string,
    category: string,
    parameterFormat: Option<string>,
    allowCategoryChange: Option<bool>,
    components: seq<Fields>)

  datatype TemplateDeleteInput = TemplateDeleteInput(
    businessAccountId: string,
    name: string,
    language: Option<string>)

  function TemplatesPath(businessAccountId: string): string {
    businessAccountId + "/message_templates"
  }

  // ---------------------------------------------------------------------
  // list
  // ---------------------------------------------------------------------

  /** The candidate query parameters of `list`, in the order they are assigned. */
  function ListEntries(input: TemplateListInput): seq<(string, Option<Json>)> {
    [("limit", if input.limit.Some? then Some(JInt(input.limit.value)) else None),
     ("before", StrIfGiven(input.before)),
     ("after", StrIfGiven(input.after)),
     ("order", StrIfGiven(input.order)),
     ("status", StrIfGiven(input.status)),
     ("name", StrIfGiven(input.name)),
     ("category", StrIfGiven(input.category)),
     ("language", StrIfGiven(input.language))]
  }

  lemma ListEntriesDistinct(input: TemplateListInput)
    ensures DistinctNames(ListEntries(input))
  {
  }

  /**
   * The query parameters of `list`: `limit` whenever it is given (0
   * included) and every string filter only when it is non-empty.
   */
  function ListParams(input: TemplateListInput): (r: Fields)
    ensures Get(r, "limit") == if input.limit.Some? then Some(JInt(input.limit.value)) else None
    ensures Get(r, "before") == StrIfGiven(input.before)
    ensures Get(r, "after") == StrIfGiven(input.after)
    ensures Get(r, "order") == StrIfGiven(input.order)
    ensures Get(r, "status") == StrIfGiven(input.status)
    ensures Get(r, "name") == StrIfGiven(input.name)
    ensures Get(r, "category") == StrIfGiven(input.category)
    ensures Get(r, "language") == StrIfGiven(input.language)
  {
    var es := ListEntries(input);
    ListEntriesDistinct(input);
    PresentGet(es, 0);
    PresentGet(es, 1);
    PresentGet(es, 2);
    PresentGet(es, 3);
    PresentGet(es, 4);
    PresentGet(es, 5);
    PresentGet(es, 6);
    PresentGet(es, 7);
    Present(es)
  }

  /** Each assignment of `list` adds a new key. */
  lemma ListStep(input: TemplateListInput, n: nat)
    requires n < |ListEntries(input)|
    ensures ListEntries(input)[n].0 !in Keys(PresentUpTo(ListEntries(input), n))
  {
    ListEntriesDistinct(input);
    PresentUpToFresh(ListEntries(input), n);
  }

  /** The conditional assignments of `list`, one per candidate parameter. */
  method BuildListParams(input: TemplateListInput) returns (params: Fields)
    ensures params == ListParams(input)
  {
    ghost var es := ListEntries(input);
    params := [];
    ListStep(input, 0);
    params := PutIfPresent(params, "limit", if input.limit.Some? then Some(JInt(input.limit.value)) else None);
    ListStep(input, 1);
    params := PutIfPresent(params, "before", StrIfGiven(input.before));
    ListStep(input, 2);
    params := PutIfPresent(params, "after", StrIfGiven(input.after));
    ListStep(input, 3);
    params := PutIfPresent(params, "order", StrIfGiven(input.order));
    ListStep(input, 4);
    params := PutIfPresent(params, "status", StrIfGiven(input.status));
    ListStep(input, 5);
    params := PutIfPresent(params, "name", StrIfGiven(input.name));
    ListStep(input, 6);
    params := PutIfPresent(params, "category", StrIfGiven(input.category));
    ListStep(input, 7);
    params := PutIfPresent(params, "language", StrIfGiven(input.language));
    PresentUpToSpec(es, 8);
    assert es[..8] == es;
  }

  /** Each candidate parameter of `list` is sent exactly when its value is there. */
  lemma ListParamGet(input: TemplateListInput, i: nat)
    requires i < |ListEntries(input)|
    ensures Get(ListParams(input), ListEntries(input)[i].0) == ListEntries(input)[i].1
  {
    ListEntriesDistinct(input);
    PresentGet(ListEntries(input), i);
  }

  /** `list` sends no other parameter, and no query parameters at all when none is given. */
  lemma ListParamsNothingElse(input: TemplateListInput, k: string)
    ensures k !in ["limit", "before", "after", "order", "status", "name", "category", "language"] ==>
      Get(ListParams(input), k) == None
    ensures NoneIfEmpty(ListParams(input)).None? <==>
      input.limit.None? && !Given(input.before) && !Given(input.after) && !Given(input.order) &&
      !Given(input.status) && !Given(input.name) && !Given(input.category) && !Given(input.language)
  {
    var es := ListEntries(input);
    if k !in ["limit", "before", "after", "order", "status", "name", "category", "language"] {
      PresentAbsent(es, k);
    }
    PresentEmpty(es);
    assert (forall i :: 0 <= i < |es| ==> es[i].1.None?) <==>
      es[0].1.None? && es[1].1.None? && es[2].1.None? && es[3].1.None? &&
      es[4].1.None? && es[5].1.None? && es[6].1.None? && es[7].1.None?;
  }

  /** `list(input)`: a GET with the built parameters, or none when they are empty. */
  method List<T>(client: WhatsAppClient, input: TemplateListInput, validate: Json -> Result<T>) returns (r: Outcome<T>)
    modifies client.http
    ensures client.http.closed == old(client.http.closed)
    ensures client.http.calls == old(client.http.calls) +
      [client.RequestCall("GET", TemplatesPath(input.businessAccountId), None, NoneIfEmpty(ListParams(input)), None, None, [])]
    ensures r == Validated(Finish(client.LastResponse(), client.parseJson), validate)
  {
    var params := BuildListParams(input);
    var resp := client.Get(TemplatesPath(input.businessAccountId), if params == [] then None else Some(JObj(params)));
    r := Validated(resp, validate);
  }

  // ---------------------------------------------------------------------
  // create
  // ---------------------------------------------------------------------

  /** The four entries every `create` body starts with. */
  function CreateFixed(input: TemplateCreateInput): Fields {
    [("name", JStr(input.name)), ("language", JStr(input.language)), ("category", JStr(input.category)),
     ("components", JArr(seq(|input.components|, i requires 0 <= i < |input.components| => JObj(input.components[i]))))]
  }

  /** The optional entries of `create`, in the order they are assigned. */
  function CreateOptional(input: TemplateCreateInput): seq<(string, Option<Json>)> {
    [("parameter_format", StrIfGiven(input.parameterFormat)),
     ("allow_category_change", if input.allowCategoryChange.Some? then Some(JBool(input.allowCategoryChange.value)) else None)]
  }

  /**
   * The `create` body always names the template, its language, category and
   * components; `parameter_format` only when non-empty; and
   * `allow_category_change` whenever it is given, `false` included.
   */
  function CreateBody(input: TemplateCreateInput): (r: Fields)
    ensures Get(r, "name") == Some(JStr(input.name))
    ensures Get(r, "language") == Some(JStr(input.language))
    ensures Get(r, "category") == Some(JStr(input.category))
    ensures Get(r, "components").Some? && Get(r, "components").value.JArr?
    ensures var cs := Get(r, "components").value.items;
      |cs| == |input.components| && forall i :: 0 <= i < |cs| ==> cs[i] == JObj(input.components[i])
    ensures Get(r, "parameter_format") == StrIfGiven(input.parameterFormat)
    ensures Get(r, "allow_category_change") ==
      if input.allowCategoryChange.Some? then Some(JBool(input.allowCategoryChange.value)) else None
  {
    var fixed := CreateFixed(input);
    var es := CreateOptional(input);
    GetFirst(fixed, 0);
    GetFirst(fixed, 1);
    GetFirst(fixed, 2);
    GetFirst(fixed, 3);
    GetAppend(fixed, Present(es), "name");
    GetAppend(fixed, Present(es), "language");
    GetAppend(fixed, Present(es), "category");
    GetAppend(fixed, Present(es), "components");
    GetAbsent(fixed, "parameter_format");
    GetAbsent(fixed, "allow_category_change");
    GetAppend(fixed, Present(es), "parameter_format");
    GetAppend(fixed, Present(es), "allow_category_change");
    PresentGet(es, 0);
    PresentGet(es, 1);
    fixed + Present(es)
  }

  /** Neither optional key of `create` is in the dict when its turn comes. */
  lemma CreateStep(input: TemplateCreateInput, n: nat)
    requires n < |CreateOptional(input)|
    ensures CreateOptional(input)[n].0 !in Keys(CreateFixed(input) + PresentUpTo(CreateOptional(input), n))
  {
    var es := CreateOptional(input);
    PresentUpToFresh(es, n);
    KeysAppend(CreateFixed(input), PresentUpTo(es, n));
  }

  /** The dict literal and the two conditional assignments of `create`. */
  method BuildCreateBody(input: TemplateCreateInput) returns (body: Fields)
    ensures body == CreateBody(input)
  {
    ghost var es := CreateOptional(input);
    body := CreateFixed(input);
    CreateStep(input, 0);
    body := PutIfPresent(body, "parameter_format", StrIfGiven(input.parameterFormat));
    CreateStep(input, 1);
    body := PutIfPresent(body, "allow_category_change",
                         if input.allowCategoryChange.Some? then Some(JBool(input.allowCategoryChange.value)) else None);
    PresentUpToSpec(es, 2);
    assert es[..2] == es;
  }

  /** `create(input)`: a POST of the built body. */
  method Create<T>(client: WhatsAppClient, input: TemplateCreateInput, validate: Json -> Result<T>) returns (r: Outcome<T>)
    modifies client.http
    ensures client.http.closed == old(client.http.closed)
    ensures client.http.calls == old(client.http.calls) +
      [client.RequestCall("POST", TemplatesPath(input.businessAccountId), Some(JObj(CreateBody(input))), None, None, None, [])]
    ensures r == Validated(Finish(client.LastResponse(), client.parseJson), validate)
  {
    var body := BuildCreateBody(input);
    var resp := client.Post(TemplatesPath(input.businessAccountId), Some(JObj(body)), None, None);
    r := Validated(resp, validate);
  }

  // ---------------------------------------------------------------------
  // delete
  // ---------------------------------------------------------------------

  /** `delete` always names the template; the language goes out as `hsm_id`, and only when non-empty. */
  function DeleteParams(input: TemplateDeleteInput): (r: Fields)
    ensures Get(r, "name") == Some(JStr(input.name))
    ensures Get(r, "hsm_id") == StrIfGiven(input.language)
    ensures Get(r, "language") == None
  {
    var tail := Entry(("hsm_id", StrIfGiven(input.language)));
    GetConsHead("name", JStr(input.name), tail);
    GetConsTail("name", JStr(input.name), tail, "hsm_id");
    GetConsTail("name", JStr(input.name), tail, "language");
    assert Get(tail, "hsm_id") == StrIfGiven(input.language) && Get(tail, "language") == None by {
      if Given(input.language) {
        GetConsHead("hsm_id", JStr(input.language.value), []);
        GetConsTail("hsm_id", JStr(input.language.value), [], "language");
      }
    }
    [("name", JStr(input.name))] + tail
  }

  /** The dict literal and the conditional assignment of `delete`. */
  method BuildDeleteParams(input: TemplateDeleteInput) returns (params: Fields)
    ensures params == DeleteParams(input)
  {
    params := [("name", JStr(input.name))];
    if Given(input.language) {
      params := params + [("hsm_id", JStr(input.language.value))];
    }
  }

  /** `delete(input)`: a DELETE with the built parameters, always sent. */
  method Delete<T>(client: WhatsAppClient, input: TemplateDeleteInput, validate: Json -> Result<T>) returns (r: Outcome<T>)
    modifies client.http
    ensures client.http.closed == old(client.http.closed)
    ensures client.http.calls == old(client.http.calls) +
      [client.RequestCall("DELETE", TemplatesPath(input.businessAccountId), None, Some(JObj(DeleteParams(input))), None, None, [])]
    ensures r == Validated(Finish(client.LastResponse(), client.parseJson), validate)
  {
    var params := BuildDeleteParams(input);
    var resp := client.Delete(TemplatesPath(input.businessAccountId), Some(JObj(params)));
    r := Validated(resp, validate);
  }
}
