/**
 * The messages resource (resources/messages/resource.py): the JSON body
 * each `send_*` posts to "{phone_number_id}/messages".
 *
 * `_send` starts from the serialised input model and moves its fields into
 * a fresh body by popping them; `_send_interactive` and
 * `send_interactive_raw` assemble their body from explicit arguments. The
 * two paths place the reply context differently: `_send` copies
 * `context_message_id` to the top level, while the interactive paths nest
 * it as `{"context": {"message_id": ...}}`.
 */
module MessagesResource {
  import opened Wrappers
  import opened JsonValues
  import opened Types
  import opened MessageModels
  import opened Client

  // ---------------------------------------------------------------------
  // _send
  // ---------------------------------------------------------------------

  /** The base fields the loop in `_send` moves to the body, in order. */
  const MovedFields: seq<string> := ["context_message_id", "biz_opaque_callback_data"]

  /** One turn of that loop: the field is popped, and copied to the body unless it is None or absent. */
  function MoveField(acc: (Fields, Fields), field: string): (Fields, Fields) {
    var v := GetOr(acc.1, field, JNull);
    (if v != JNull then Put(acc.0, field, v) else acc.0, Remove(acc.1, field))
  }

  /** The loop over `fields`: the body and the remaining payload after it. */
  function MoveFields(acc: (Fields, Fields), fields: seq<string>): (Fields, Fields)
    decreases |fields|
  {
    if fields == [] then acc
    else MoveField(MoveFields(acc, fields[..|fields| - 1]), fields[|fields| - 1])
  }

  /**
   * The first half of `_send`: the four fixed entries, the moved base
   * fields, and what remains of the payload once phone_number_id is popped.
   * A payload without "to" raises KeyError; otherwise the body starts with
   * the product, the popped recipient type ("individual" when absent), the
   * recipient and the message type, and the loop never disturbs them.
   */
  function SendHead(msgType: string, payload: Fields): (r: Result<(Fields, Fields)>)
    ensures r.Err? <==> Get(Remove(payload, "recipient_type"), "to").None?
    ensures r.Err? ==> r.fault == KeyError
    ensures r.Ok? ==> (
      |r.value.0| >= 4 &&
      r.value.0[..4] == [("messaging_product", JStr("whatsapp")),
                         ("recipient_type", GetOr(payload, "recipient_type", JStr("individual"))),
                         ("to", Get(Remove(payload, "recipient_type"), "to").value), ("type", JStr(msgType))])
  {
    var rt := GetOr(payload, "recipient_type", JStr("individual"));
    var p1 := Remove(payload, "recipient_type");
    if Get(p1, "to").None? then Err(KeyError)
    else
      var fixed := [("messaging_product", JStr("whatsapp")), ("recipient_type", rt),
                    ("to", Get(p1, "to").value), ("type", JStr(msgType))];
      var moved := MoveFields((fixed, Remove(p1, "to")), MovedFields);
      MoveFieldsKeepHead((fixed, Remove(p1, "to")), MovedFields, 4);
      Ok((moved.0, Remove(moved.1, "phone_number_id")))
  }

  /** The loop of `_send` leaves alone every body entry whose key it does not move. */
  lemma {:induction false} MoveFieldsKeepHead(acc: (Fields, Fields), fields: seq<string>, n: nat)
    requires n <= |acc.0|
    requires forall i, j :: 0 <= i < n && 0 <= j < |fields| ==> acc.0[i].0 != fields[j]
    ensures |MoveFields(acc, fields).0| >= n && MoveFields(acc, fields).0[..n] == acc.0[..n]
    decreases |fields|
  {
    if fields != [] {
      var init := fields[..|fields| - 1];
      assert forall j :: 0 <= j < |init| ==> init[j] == fields[j];
      MoveFieldsKeepHead(acc, init, n);
      var m := MoveFields(acc, init);
      var f := fields[|fields| - 1];
      var v := GetOr(m.1, f, JNull);
      if v != JNull {
        PutKeepsOthers(m.0, f, v);
        assert forall i :: 0 <= i < n ==> m.0[i] == acc.0[..n][i];
      }
    }
  }

  /**
   * The second half of `_send`: text gets `{"body", "preview_url"}` (a
   * missing body raises KeyError), reaction and the other types their own
   * sub-dict when present, interactive the whole remaining payload. The
   * entry goes under the message type, and nothing else in the body changes.
   */
  function SendTail(msgType: string, body: Fields, p: Fields): (r: Result<Fields>)
    ensures r.Err? <==> msgType == "text" && Get(p, "body").None?
    ensures r.Err? ==> r.fault == KeyError
    ensures r.Ok? ==> forall k :: k != msgType ==> Get(r.value, k) == Get(body, k)
    ensures r.Ok? && msgType == "text" ==>
      Get(r.value, "text") == Some(JObj([("body", Get(p, "body").value),
                                         ("preview_url", GetOr(Remove(p, "body"), "preview_url", JBool(false)))]))
    ensures r.Ok? && msgType == "interactive" ==> Get(r.value, "interactive") == Some(JObj(p))
    ensures r.Ok? && msgType != "text" && msgType != "interactive" ==>
      Get(r.value, msgType) == Some(GetOr(p, msgType, JObj(p)))
  {
    if msgType == "text" && Get(p, "body").None? then Err(KeyError)
    else
      var v :=
        if msgType == "text" then
          JObj([("body", Get(p, "body").value), ("preview_url", GetOr(Remove(p, "body"), "preview_url", JBool(false)))])
        else if msgType == "reaction" then GetOr(p, "reaction", JObj(p))
        else if msgType == "interactive" then JObj(p)
        else GetOr(p, msgType, JObj(p));
      GetPutAll(body, msgType, v);
      Ok(Put(body, msgType, v))
  }

  /**
   * The body `_send(phone_number_id, msg_type, payload)` posts: KeyError is
   * its only failure, a payload without "to" always fails, and a body it
   * builds carries the product, the recipient type, the recipient and the
   * message type, with the type-specific entry under the message type.
   */
  function SendBodySpec(msgType: string, payload: Fields): (r: Result<Fields>)
    ensures r.Err? ==> r.fault == KeyError
    ensures Get(Remove(payload, "recipient_type"), "to").None? ==> r == Err(KeyError)
    ensures r.Ok? ==> Get(r.value, msgType).Some?
    ensures r.Ok? && msgType !in {"messaging_product", "recipient_type", "to", "type"} ==> (
      Get(r.value, "messaging_product") == Some(JStr("whatsapp")) &&
      Get(r.value, "recipient_type") == Some(GetOr(payload, "recipient_type", JStr("individual"))) &&
      Get(r.value, "to") == Get(Remove(payload, "recipient_type"), "to") &&
      Get(r.value, "type") == Some(JStr(msgType)))
  {
    var h :- SendHead(msgType, payload);
    var body := h.0;
    assert body == body[..4] + body[4..];
    FixedEntries(body[..4], body[4..], JStr("whatsapp"), GetOr(payload, "recipient_type", JStr("individual")),
                 Get(Remove(payload, "recipient_type"), "to").value, JStr(msgType));
    SendTail(msgType, body, h.1)
  }

  /** The first half of `_send`: pops into a fresh body, with the loop over the moved fields. */
  method BuildSendHead(msgType: string, payload: Fields) returns (r: Result<(Fields, Fields)>)
    ensures r == SendHead(msgType, payload)
  {
    var p := payload;
    var rt := GetOr(p, "recipient_type", JStr("individual"));
    p := Remove(p, "recipient_type");
    var to := Get(p, "to");
    if to.None? {
      return Err(KeyError);
    }
    p := Remove(p, "to");
    var body := [("messaging_product", JStr("whatsapp")), ("recipient_type", rt), ("to", to.value), ("type", JStr(msgType))];
    ghost var start := (body, p);
    for i := 0 to |MovedFields|
      invariant (body, p) == MoveFields(start, MovedFields[..i])
    {
      assert MovedFields[..i + 1][..i] == MovedFields[..i];
      var field := MovedFields[i];
      var v := GetOr(p, field, JNull);
      p := Remove(p, field);
      if v != JNull {
        body := Put(body, field, v);
      }
    }
    assert MovedFields[..|MovedFields|] == MovedFields;
    p := Remove(p, "phone_number_id");
    r := Ok((body, p));
  }

  /** The second half of `_send`: the type-specific entry. */
  method BuildSendTail(msgType: string, body: Fields, payload: Fields) returns (r: Result<Fields>)
    ensures r == SendTail(msgType, body, payload)
  {
    var p := payload;
    var out := body;
    if msgType == "text" {
      var text := Get(p, "body");
      if text.None? {
        return Err(KeyError);
      }
      p := Remove(p, "body");
      var preview := GetOr(p, "preview_url", JBool(false));
      out := Put(out, "text", JObj([("body", text.value), ("preview_url", preview)]));
    } else if msgType == "reaction" {
      out := Put(out, "reaction", GetOr(p, "reaction", JObj(p)));
    } else if msgType == "interactive" {
      out := Put(out, "interactive", JObj(p));
    } else {
      out := Put(out, msgType, GetOr(p, msgType, JObj(p)));
    }
    r := Ok(out);
  }

  /** `_send`'s body construction. */
  method BuildSendBody(msgType: string, payload: Fields) returns (r: Result<Fields>)
    ensures r == SendBodySpec(msgType, payload)
  {
    var head := BuildSendHead(msgType, payload);
    if head.Err? {
      return Err(head.fault);
    }
    r := BuildSendTail(msgType, head.value.0, head.value.1);
  }

  /** The recorded POST of a message body to "{phone_number_id}/messages". */
  function MessagesCall(client: WhatsAppClient, phoneNumberId: string, body: Fields): Call {
    client.RequestCall("POST", phoneNumberId + "/messages", Some(JObj(body)), None, None, None, [])
  }

  /** `_send`: a payload it cannot shape raises before any request; otherwise one POST, validated as `SendMessageResponse`. */
  method Send(client: WhatsAppClient, phoneNumberId: string, msgType: string, payload: Fields)
      returns (r: Outcome<SendMessageResponse>)
    modifies client.http
    ensures client.http.closed == old(client.http.closed)
    ensures SendBodySpec(msgType, payload).Err? ==>
      client.http.calls == old(client.http.calls) &&
      r == Failure(PyError(SendBodySpec(msgType, payload).fault))
    ensures SendBodySpec(msgType, payload).Ok? ==>
      client.http.calls == old(client.http.calls) + [MessagesCall(client, phoneNumberId, SendBodySpec(msgType, payload).value)] &&
      r == Validated(Finish(client.LastResponse(), client.parseJson), ValidateSendMessageResponse)
  {
    var body := BuildSendBody(msgType, payload);
    if body.Err? {
      return Failure(PyError(body.fault));
    }
    var resp := client.Post(phoneNumberId + "/messages", Some(JObj(body.value)), None, None);
    r := Validated(resp, ValidateSendMessageResponse);
  }

  // ---------------------------------------------------------------------
  // What _send posts for each typed message
  // ---------------------------------------------------------------------

  /** The entries every `_send` body starts with, for a validated base. */
  function WireHead(b: BaseMessage, msgType: string): Fields {
    [("messaging_product", JStr("whatsapp")), ("recipient_type", JStr(b.recipientType.Name())),
     ("to", JStr(b.to)), ("type", JStr(msgType))] +
    OptStr("context_message_id", b.contextMessageId) +
    OptStr("biz_opaque_callback_data", b.bizOpaqueCallbackData)
  }

  /** What a typed payload contributes under the key `msg_type`. */
  function WireValue(p: Payload): Json {
    if p.Text? then JObj(PayloadDump(p)) else PayloadDump(p)[0].1
  }

  /**
   * The body the API receives for a typed message: head, then the payload
   * under its type. It carries the product, the recipient, the recipient
   * type and the message type; the reply context sits at the top level as
   * `context_message_id`, present exactly when given; there is no `context`
   * and no `phone_number_id` entry.
   */
  function WireBody(m: OutboundMessage): (r: Fields)
    ensures Get(r, "messaging_product") == Some(JStr("whatsapp"))
    ensures Get(r, "to") == Some(JStr(m.base.to))
    ensures Get(r, "recipient_type") == Some(JStr(m.base.recipientType.Name()))
    ensures Get(r, "type") == Some(JStr(MessageType(m.payload)))
    ensures Get(r, "context_message_id") ==
      if m.base.contextMessageId.Some? then Some(JStr(m.base.contextMessageId.value)) else None
    ensures Get(r, "context").None? && Get(r, "phone_number_id").None?
  {
    var t := MessageType(m.payload);
    var rest := OptStr("biz_opaque_callback_data", m.base.bizOpaqueCallbackData) + [(t, WireValue(m.payload))];
    SendLayout(m.base.recipientType.Name(), m.base.to, t, m.base.contextMessageId, rest);
    var body := WireHead(m.base, t) + [(t, WireValue(m.payload))];
    assert body == [("messaging_product", JStr("whatsapp")), ("recipient_type", JStr(m.base.recipientType.Name())),
                    ("to", JStr(m.base.to)), ("type", JStr(t))] + (OptStr("context_message_id", m.base.contextMessageId) + rest);
    body
  }

  /** The entries of a `_send` body laid out as the fixed four, the optional reply context, and the rest. */
  lemma SendLayout(rt: string, to: string, t: string, ctx: Option<string>, rest: Fields)
    requires forall i :: 0 <= i < |rest| ==>
      rest[i].0 != "context" && rest[i].0 != "phone_number_id" && rest[i].0 != "context_message_id"
    ensures var body := [("messaging_product", JStr("whatsapp")), ("recipient_type", JStr(rt)), ("to", JStr(to)),
                         ("type", JStr(t))] + (OptStr("context_message_id", ctx) + rest);
      Get(body, "messaging_product") == Some(JStr("whatsapp")) &&
      Get(body, "to") == Some(JStr(to)) &&
      Get(body, "recipient_type") == Some(JStr(rt)) &&
      Get(body, "type") == Some(JStr(t)) &&
      Get(body, "context_message_id") == (if ctx.Some? then Some(JStr(ctx.value)) else None) &&
      Get(body, "context").None? && Get(body, "phone_number_id").None?
  {
    var fixed := [("messaging_product", JStr("whatsapp")), ("recipient_type", JStr(rt)), ("to", JStr(to)), ("type", JStr(t))];
    var tail := OptStr("context_message_id", ctx) + rest;
    var body := fixed + tail;
    FixedEntries(fixed, tail, JStr("whatsapp"), JStr(rt), JStr(to), JStr(t));
    GetAppend(fixed, tail, "context_message_id");
    GetAbsent(fixed, "context_message_id");
    GetAbsent(body, "context");
    GetAbsent(body, "phone_number_id");
    if ctx.Some? {
      GetConsHead("context_message_id", JStr(ctx.value), rest);
    } else {
      GetAbsent(tail, "context_message_id");
    }
  }

  /** Serialised payload fields never reuse a base field name. */
  predicate AvoidsBaseKeys(d: Fields) {
    forall i :: 0 <= i < |d| ==>
      d[i].0 != "phone_number_id" && d[i].0 != "to" && d[i].0 != "recipient_type" &&
      d[i].0 != "context_message_id" && d[i].0 != "biz_opaque_callback_data"
  }

  /** The serialised base fields, in the order `BaseDump` writes them. */
  lemma BaseDumpShape(b: BaseMessage, d: Fields)
    ensures BaseDump(b) + d ==
      [("phone_number_id", JStr(b.phoneNumberId))] + ([("to", JStr(b.to))] + ([("recipient_type", JStr(b.recipientType.Name()))] +
      (OptStr("context_message_id", b.contextMessageId) + (OptStr("biz_opaque_callback_data", b.bizOpaqueCallbackData) + d))))
  {
  }

  /** Popping recipient_type, the third entry. */
  lemma PopRecipientType(pid: Json, to: Json, rt: Json, rest: Fields)
    ensures var payload := [("phone_number_id", pid)] + ([("to", to)] + ([("recipient_type", rt)] + rest));
      GetOr(payload, "recipient_type", JStr("individual")) == rt &&
      Remove(payload, "recipient_type") == [("phone_number_id", pid)] + ([("to", to)] + rest)
  {
    var t2 := [("recipient_type", rt)] + rest;
    var t1 := [("to", to)] + t2;
    GetConsTail("phone_number_id", pid, t1, "recipient_type");
    GetConsTail("to", to, t2, "recipient_type");
    GetConsHead("recipient_type", rt, rest);
    RemoveCons("phone_number_id", pid, t1, "recipient_type");
    RemoveCons("to", to, t2, "recipient_type");
    RemoveCons("recipient_type", rt, rest, "recipient_type");
  }

  /** Popping to, now the second entry. */
  lemma PopTo(pid: Json, to: Json, rest: Fields)
    ensures var payload := [("phone_number_id", pid)] + ([("to", to)] + rest);
      Get(payload, "to") == Some(to) && Remove(payload, "to") == [("phone_number_id", pid)] + rest
  {
    GetConsTail("phone_number_id", pid, [("to", to)] + rest, "to");
    GetConsHead("to", to, rest);
    RemoveCons("phone_number_id", pid, [("to", to)] + rest, "to");
    RemoveCons("to", to, rest, "to");
  }

  /** Moving one optional base field that sits behind phone_number_id. */
  lemma MoveOptional(acc: Fields, pid: Json, k: string, v: Option<string>, rest: Fields)
    requires k != "phone_number_id"
    requires forall i :: 0 <= i < |rest| ==> rest[i].0 != k
    requires forall i :: 0 <= i < |acc| ==> acc[i].0 != k
    ensures MoveField((acc, [("phone_number_id", pid)] + (OptStr(k, v) + rest)), k) ==
      (acc + OptStr(k, v), [("phone_number_id", pid)] + rest)
  {
    var tail := OptStr(k, v) + rest;
    GetConsTail("phone_number_id", pid, tail, k);
    RemoveCons("phone_number_id", pid, tail, k);
    if v.Some? {
      GetConsHead(k, JStr(v.value), rest);
      RemoveCons(k, JStr(v.value), rest, k);
      PutAbsent(acc, k, JStr(v.value));
    } else {
      assert tail == rest && acc + OptStr(k, v) == acc;
      GetAbsent(rest, k);
      RemoveAbsent(rest, k);
    }
  }

  /** The loop of `_send` runs exactly its two turns. */
  lemma MoveFieldsUnrolled(start: (Fields, Fields))
    ensures MoveFields(start, MovedFields) ==
      MoveField(MoveField(start, "context_message_id"), "biz_opaque_callback_data")
  {
    assert MovedFields[..1][..0] == [];
    assert MovedFields[..2][..1] == MovedFields[..1] && MovedFields[..2] == MovedFields;
  }

  /** The loop of `_send` over a serialised base: both optional fields move, in order. */
  lemma MoveBaseFields(fixed: Fields, pid: Json, ctx: Option<string>, biz: Option<string>, d: Fields)
    requires forall i :: 0 <= i < |fixed| ==> fixed[i].0 != "context_message_id" && fixed[i].0 != "biz_opaque_callback_data"
    requires AvoidsBaseKeys(d)
    ensures MoveFields((fixed, [("phone_number_id", pid)] + (OptStr("context_message_id", ctx) + (OptStr("biz_opaque_callback_data", biz) + d))), MovedFields) ==
      (fixed + OptStr("context_message_id", ctx) + OptStr("biz_opaque_callback_data", biz), [("phone_number_id", pid)] + d)
  {
    var c := OptStr("context_message_id", ctx);
    var z := OptStr("biz_opaque_callback_data", biz);
    MoveFieldsUnrolled((fixed, [("phone_number_id", pid)] + (c + (z + d))));
    MoveOptional(fixed, pid, "context_message_id", ctx, z + d);
    MoveOptional(fixed + c, pid, "biz_opaque_callback_data", biz, d);
  }

  /** The first half of `_send` on a serialised base followed by payload fields. */
  lemma HeadOfSerialized(b: BaseMessage, msgType: string, d: Fields)
    requires AvoidsBaseKeys(d)
    ensures SendHead(msgType, BaseDump(b) + d) == Ok((WireHead(b, msgType), d))
  {
    var pid := JStr(b.phoneNumberId);
    var c := OptStr("context_message_id", b.contextMessageId);
    var z := OptStr("biz_opaque_callback_data", b.bizOpaqueCallbackData);
    var rest := c + (z + d);
    var payload := BaseDump(b) + d;
    var p1 := [("phone_number_id", pid)] + ([("to", JStr(b.to))] + rest);
    var p2 := [("phone_number_id", pid)] + rest;
    assert GetOr(payload, "recipient_type", JStr("individual")) == JStr(b.recipientType.Name()) &&
           Remove(payload, "recipient_type") == p1 by {
      BaseDumpShape(b, d);
      PopRecipientType(pid, JStr(b.to), JStr(b.recipientType.Name()), rest);
    }
    assert Get(p1, "to") == Some(JStr(b.to)) && Remove(p1, "to") == p2 by {
      PopTo(pid, JStr(b.to), rest);
    }
    var fixed := [("messaging_product", JStr("whatsapp")), ("recipient_type", JStr(b.recipientType.Name())),
                  ("to", JStr(b.to)), ("type", JStr(msgType))];
    var moved := MoveFields((fixed, p2), MovedFields);
    assert moved == (WireHead(b, msgType), [("phone_number_id", pid)] + d) by {
      MoveBaseFields(fixed, pid, b.contextMessageId, b.bizOpaqueCallbackData, d);
    }
    assert Remove(moved.1, "phone_number_id") == d by {
      RemoveCons("phone_number_id", pid, d, "phone_number_id");
    }
  }

  /** A typed payload's fields avoid the base names. */
  lemma PayloadDumpShape(p: Payload)
    ensures AvoidsBaseKeys(PayloadDump(p))
  {
  }

  /** The head never holds the key the payload goes under. */
  lemma HeadAvoidsType(b: BaseMessage, p: Payload)
    ensures forall i :: 0 <= i < |WireHead(b, MessageType(p))| ==> WireHead(b, MessageType(p))[i].0 != MessageType(p)
  {
  }

  /**
   * `send_text`, `send_image`, ..., `send_template` on a validated model
   * post exactly `WireBody`: the serialised base fields are consumed, and
   * the payload lands under its type.
   */
  lemma {:induction false} SendBodyOfMessage(m: OutboundMessage)
    ensures SendBodySpec(MessageType(m.payload), Serialize(m)) == Ok(WireBody(m))
  {
    var t := MessageType(m.payload);
    var d := PayloadDump(m.payload);
    PayloadDumpShape(m.payload);
    HeadOfSerialized(m.base, t, d);
    TailOfMessage(m);
  }

  /** The second half of `_send` puts a typed payload's value under its type, after the wire head. */
  lemma TailOfMessage(m: OutboundMessage)
    ensures SendTail(MessageType(m.payload), WireHead(m.base, MessageType(m.payload)), PayloadDump(m.payload)) == Ok(WireBody(m))
  {
    var t := MessageType(m.payload);
    var d := PayloadDump(m.payload);
    var head := WireHead(m.base, t);
    HeadAvoidsType(m.base, m.payload);
    PutAbsent(head, t, WireValue(m.payload));
    if m.payload.Text? {
      GetConsHead("body", JStr(m.payload.body), [("preview_url", JBool(m.payload.previewUrl))]);
      RemoveCons("body", JStr(m.payload.body), [("preview_url", JBool(m.payload.previewUrl))], "body");
      GetConsHead("preview_url", JBool(m.payload.previewUrl), []);
      assert [("body", JStr(m.payload.body))] + [("preview_url", JBool(m.payload.previewUrl))] == d;
    } else {
      assert d == [(t, d[0].1)] + [];
      GetConsHead(t, d[0].1, []);
    }
  }

  /** The four fixed entries every `_send` body starts with. */
  lemma FixedEntries(fixed: Fields, tail: Fields, mp: Json, rt: Json, to: Json, ty: Json)
    requires fixed == [("messaging_product", mp), ("recipient_type", rt), ("to", to), ("type", ty)]
    ensures Get(fixed + tail, "messaging_product") == Some(mp)
    ensures Get(fixed + tail, "recipient_type") == Some(rt)
    ensures Get(fixed + tail, "to") == Some(to)
    ensures Get(fixed + tail, "type") == Some(ty)
  {
    var f3 := [("type", ty)] + tail;
    var f2 := [("to", to)] + f3;
    var f1 := [("recipient_type", rt)] + f2;
    assert fixed + tail == [("messaging_product", mp)] + f1;
    GetConsHead("messaging_product", mp, f1);
    GetConsTail("messaging_product", mp, f1, "recipient_type");
    GetConsHead("recipient_type", rt, f2);
    GetConsTail("messaging_product", mp, f1, "to");
    GetConsTail("recipient_type", rt, f2, "to");
    GetConsHead("to", to, f3);
    GetConsTail("messaging_product", mp, f1, "type");
    GetConsTail("recipient_type", rt, f2, "type");
    GetConsTail("to", to, f3, "type");
    GetConsHead("type", ty, tail);
  }

  // ---------------------------------------------------------------------
  // _send_interactive and send_interactive_raw
  // ---------------------------------------------------------------------

  /**
   * The `interactive` object: type and action, then body when body_text is
   * not None, footer when footer_text is truthy, header when it is truthy.
   * Each optional part reads back exactly under its rule.
   */
  function InteractiveSpec(interactiveType: string, action: Fields, bodyText: Option<string>,
                           footerText: Option<string>, header: Option<Fields>): (r: Fields)
    ensures Get(r, "type") == Some(JStr(interactiveType)) && Get(r, "action") == Some(JObj(action))
    ensures Get(r, "body") == if bodyText.Some? then Some(JObj([("text", JStr(bodyText.value))])) else None
    ensures Get(r, "footer") == if Given(footerText) then Some(JObj([("text", JStr(footerText.value))])) else None
    ensures Get(r, "header") == if header.Some? && header.value != [] then Some(JObj(header.value)) else None
  {
    var bv := JObj([("text", JStr(bodyText.GetOr("")))]);
    var fv := JObj([("text", JStr(footerText.GetOr("")))]);
    var hv := JObj(header.GetOr([]));
    InteractiveLayout(interactiveType, action, bodyText.Some?, bv, Given(footerText), fv, header.Some? && header.value != [], hv);
    [("type", JStr(interactiveType)), ("action", JObj(action))] +
    (if bodyText.Some? then [("body", bv)] else []) +
    (if Given(footerText) then [("footer", fv)] else []) +
    (if header.Some? && header.value != [] then [("header", hv)] else [])
  }

  /** Reading back an interactive object laid out as type, action and three optional parts. */
  lemma InteractiveLayout(interactiveType: string, action: Fields, pb: bool, bv: Json, pf: bool, fv: Json, ph: bool, hv: Json)
    ensures var i := [("type", JStr(interactiveType)), ("action", JObj(action))] +
        (if pb then [("body", bv)] else []) + (if pf then [("footer", fv)] else []) + (if ph then [("header", hv)] else []);
      Get(i, "type") == Some(JStr(interactiveType)) && Get(i, "action") == Some(JObj(action)) &&
      Get(i, "body") == (if pb then Some(bv) else None) &&
      Get(i, "footer") == (if pf then Some(fv) else None) &&
      Get(i, "header") == (if ph then Some(hv) else None)
  {
    var fixed := [("type", JStr(interactiveType)), ("action", JObj(action))];
    var bb: Fields := if pb then [("body", bv)] else [];
    var ff: Fields := if pf then [("footer", fv)] else [];
    var hh: Fields := if ph then [("header", hv)] else [];
    var i := fixed + bb + ff + hh;
    assert i == [("type", JStr(interactiveType))] + ([("action", JObj(action))] + (bb + ff + hh));
    GetConsHead("type", JStr(interactiveType), [("action", JObj(action))] + (bb + ff + hh));
    GetConsTail("type", JStr(interactiveType), [("action", JObj(action))] + (bb + ff + hh), "action");
    GetConsHead("action", JObj(action), bb + ff + hh);
    assert i == fixed + bb + (ff + hh);
    GetOptional(fixed, "body", pb, bv, ff + hh);
    assert i == (fixed + bb) + ff + hh;
    GetOptional(fixed + bb, "footer", pf, fv, hh);
    assert i == (fixed + bb + ff) + hh + [];
    GetOptional(fixed + bb + ff, "header", ph, hv, []);
  }

  /**
   * The body around an `interactive` object: the fixed entries, then the
   * reply context nested as `{"message_id": ...}` and the callback data,
   * each only when truthy. The interactive object reads back unchanged, and
   * the reply context is never at the top level.
   */
  function EnvelopeSpec(to: string, interactive: Json, recipientType: string,
                        contextMessageId: Option<string>, bizOpaqueCallbackData: Option<string>): (r: Fields)
    ensures Get(r, "interactive") == Some(interactive)
    ensures Get(r, "type") == Some(JStr("interactive"))
    ensures Get(r, "context") ==
      if Given(contextMessageId) then Some(JObj([("message_id", JStr(contextMessageId.value))])) else None
    ensures Get(r, "context_message_id").None?
    ensures Get(r, "biz_opaque_callback_data") ==
      if Given(bizOpaqueCallbackData) then Some(JStr(bizOpaqueCallbackData.value)) else None
  {
    var cv := JObj([("message_id", JStr(contextMessageId.GetOr("")))]);
    var zv := JStr(bizOpaqueCallbackData.GetOr(""));
    EnvelopeLayout(to, interactive, recipientType, Given(contextMessageId), cv, Given(bizOpaqueCallbackData), zv);
    [("messaging_product", JStr("whatsapp")), ("recipient_type", JStr(recipientType)), ("to", JStr(to)),
     ("type", JStr("interactive")), ("interactive", interactive)] +
    (if Given(contextMessageId) then [("context", cv)] else []) +
    (if Given(bizOpaqueCallbackData) then [("biz_opaque_callback_data", zv)] else [])
  }

  /** Reading back an envelope laid out as the five fixed entries and two optional parts. */
  lemma EnvelopeLayout(to: string, interactive: Json, recipientType: string, pc: bool, cv: Json, pz: bool, zv: Json)
    ensures var e := [("messaging_product", JStr("whatsapp")), ("recipient_type", JStr(recipientType)), ("to", JStr(to)),
                      ("type", JStr("interactive")), ("interactive", interactive)] +
        (if pc then [("context", cv)] else []) + (if pz then [("biz_opaque_callback_data", zv)] else []);
      Get(e, "interactive") == Some(interactive) &&
      Get(e, "type") == Some(JStr("interactive")) &&
      Get(e, "context") == (if pc then Some(cv) else None) &&
      Get(e, "context_message_id").None? &&
      Get(e, "biz_opaque_callback_data") == (if pz then Some(zv) else None)
  {
    var fixed := [("messaging_product", JStr("whatsapp")), ("recipient_type", JStr(recipientType)), ("to", JStr(to)),
                  ("type", JStr("interactive"))];
    var cc: Fields := if pc then [("context", cv)] else [];
    var zz: Fields := if pz then [("biz_opaque_callback_data", zv)] else [];
    var head := fixed + [("interactive", interactive)];
    assert head == [("messaging_product", JStr("whatsapp")), ("recipient_type", JStr(recipientType)), ("to", JStr(to)),
                    ("type", JStr("interactive")), ("interactive", interactive)];
    var e := head + cc + zz;
    assert e == fixed + ([("interactive", interactive)] + (cc + zz));
    FixedEntries(fixed, [("interactive", interactive)] + (cc + zz), JStr("whatsapp"), JStr(recipientType), JStr(to), JStr("interactive"));
    GetAppend(fixed, [("interactive", interactive)] + (cc + zz), "interactive");
    GetAbsent(fixed, "interactive");
    GetConsHead("interactive", interactive, cc + zz);
    GetOptional(head, "context", pc, cv, zz);
    assert e == (head + cc) + zz + [];
    GetOptional(head + cc, "biz_opaque_callback_data", pz, zv, []);
    GetAbsent(e, "context_message_id");
  }

  /** The `interactive` dict of `_send_interactive`, filled by successive assignments. */
  method BuildInteractive(interactiveType: string, action: Fields, bodyText: Option<string>,
                          footerText: Option<string>, header: Option<Fields>) returns (r: Fields)
    ensures r == InteractiveSpec(interactiveType, action, bodyText, footerText, header)
  {
    r := [("type", JStr(interactiveType)), ("action", JObj(action))];
    if bodyText.Some? {
      PutAbsent(r, "body", JObj([("text", JStr(bodyText.value))]));
      r := Put(r, "body", JObj([("text", JStr(bodyText.value))]));
    }
    if Given(footerText) {
      PutAbsent(r, "footer", JObj([("text", JStr(footerText.value))]));
      r := Put(r, "footer", JObj([("text", JStr(footerText.value))]));
    }
    if header.Some? && header.value != [] {
      PutAbsent(r, "header", JObj(header.value));
      r := Put(r, "header", JObj(header.value));
    }
  }

  /** The outer body of `_send_interactive` and `send_interactive_raw`, filled by successive assignments. */
  method BuildEnvelope(to: string, interactive: Json, recipientType: string,
                       contextMessageId: Option<string>, bizOpaqueCallbackData: Option<string>) returns (r: Fields)
    ensures r == EnvelopeSpec(to, interactive, recipientType, contextMessageId, bizOpaqueCallbackData)
  {
    r := [("messaging_product", JStr("whatsapp")), ("recipient_type", JStr(recipientType)), ("to", JStr(to)),
          ("type", JStr("interactive")), ("interactive", interactive)];
    if Given(contextMessageId) {
      PutAbsent(r, "context", JObj([("message_id", JStr(contextMessageId.value))]));
      r := Put(r, "context", JObj([("message_id", JStr(contextMessageId.value))]));
    }
    if Given(bizOpaqueCallbackData) {
      PutAbsent(r, "biz_opaque_callback_data", JStr(bizOpaqueCallbackData.value));
      r := Put(r, "biz_opaque_callback_data", JStr(bizOpaqueCallbackData.value));
    }
  }

  /** The body `_send_interactive` posts for a validated base. */
  function InteractiveBody(b: BaseMessage, interactiveType: string, action: Fields, bodyText: Option<string>,
                           footerText: Option<string>, header: Option<Fields>): Fields {
    EnvelopeSpec(b.to, JObj(InteractiveSpec(interactiveType, action, bodyText, footerText, header)),
                 b.recipientType.Name(), b.contextMessageId, b.bizOpaqueCallbackData)
  }

  /** `_send_interactive`: one POST of `InteractiveBody`, validated as `SendMessageResponse`. */
  method SendInteractive(client: WhatsAppClient, b: BaseMessage, interactiveType: string, action: Fields,
                         bodyText: Option<string>, footerText: Option<string>, header: Option<Fields>)
      returns (r: Outcome<SendMessageResponse>)
    modifies client.http
    ensures client.http.closed == old(client.http.closed)
    ensures client.http.calls == old(client.http.calls) +
      [MessagesCall(client, b.phoneNumberId, InteractiveBody(b, interactiveType, action, bodyText, footerText, header))]
    ensures r == Validated(Finish(client.LastResponse(), client.parseJson), ValidateSendMessageResponse)
  {
    var interactive := BuildInteractive(interactiveType, action, bodyText, footerText, header);
    var body := BuildEnvelope(b.to, JObj(interactive), b.recipientType.Name(), b.contextMessageId, b.bizOpaqueCallbackData);
    var resp := client.Post(b.phoneNumberId + "/messages", Some(JObj(body)), None, None);
    r := Validated(resp, ValidateSendMessageResponse);
  }

  /** `send_interactive_raw`: the caller's interactive object, unchanged, inside the same envelope. */
  method SendInteractiveRaw(client: WhatsAppClient, phoneNumberId: string, to: string, interactive: Fields,
                            recipientType: string, contextMessageId: Option<string>,
                            bizOpaqueCallbackData: Option<string>)
      returns (r: Outcome<SendMessageResponse>)
    modifies client.http
    ensures client.http.closed == old(client.http.closed)
    ensures client.http.calls == old(client.http.calls) +
      [MessagesCall(client, phoneNumberId, EnvelopeSpec(to, JObj(interactive), recipientType, contextMessageId, bizOpaqueCallbackData))]
    ensures r == Validated(Finish(client.LastResponse(), client.parseJson), ValidateSendMessageResponse)
  {
    var body := BuildEnvelope(to, JObj(interactive), recipientType, contextMessageId, bizOpaqueCallbackData);
    var resp := client.Post(phoneNumberId + "/messages", Some(JObj(body)), None, None);
    r := Validated(resp, ValidateSendMessageResponse);
  }

  /**
   * The two paths disagree on where a reply context goes: `_send` puts
   * `context_message_id` at the top level, `_send_interactive` a nested
   * `context.message_id`, for the same base.
   */
  lemma ContextPlacementDiffers(m: OutboundMessage, interactiveType: string, action: Fields, bodyText: Option<string>,
                                footerText: Option<string>, header: Option<Fields>)
    requires Given(m.base.contextMessageId)
    ensures Get(WireBody(m), "context_message_id") == Some(JStr(m.base.contextMessageId.value))
    ensures Get(WireBody(m), "context").None?
    ensures Get(InteractiveBody(m.base, interactiveType, action, bodyText, footerText, header), "context") ==
      Some(JObj([("message_id", JStr(m.base.contextMessageId.value))]))
    ensures Get(InteractiveBody(m.base, interactiveType, action, bodyText, footerText, header), "context_message_id").None?
  {
  }

  // ---------------------------------------------------------------------
  // send_text ... send_template
  // ---------------------------------------------------------------------

  /**
   * `send_text`, `send_image`, `send_audio`, `send_video`, `send_document`,
   * `send_sticker`, `send_location`, `send_contacts`, `send_reaction` and
   * `send_template`: each serialises its model and hands it to `_send`
   * under its own type; the body posted is `WireBody`.
   */
  method SendMessage(client: WhatsAppClient, m: OutboundMessage) returns (r: Outcome<SendMessageResponse>)
    modifies client.http
    ensures client.http.closed == old(client.http.closed)
    ensures client.http.calls == old(client.http.calls) + [MessagesCall(client, m.base.phoneNumberId, WireBody(m))]
    ensures r == Validated(Finish(client.LastResponse(), client.parseJson), ValidateSendMessageResponse)
  {
    SendBodyOfMessage(m);
    r := Send(client, m.base.phoneNumberId, MessageType(m.payload), Serialize(m));
  }

  // ---------------------------------------------------------------------
  // The interactive senders
  // ---------------------------------------------------------------------

  /** `_serialize(input.header)` when a header was given (a model instance is always truthy). */
  function HeaderOf(h: Option<InteractiveHeader>): Option<Fields> {
    if h.Some? then Some(HeaderDump(h.value)) else None
  }

  /** One button of `send_interactive_buttons`. */
  function ReplyButton(b: InteractiveButton): Json {
    JObj([("type", JStr("reply")), ("reply", JObj([("id", JStr(b.id)), ("title", JStr(b.title))]))])
  }

  function ButtonsAction(buttons: seq<InteractiveButton>): Fields {
    [("buttons", JArr(seq(|buttons|, i requires 0 <= i < |buttons| => ReplyButton(buttons[i]))))]
  }

  /** `send_interactive_buttons`. */
  method SendButtons(client: WhatsAppClient, m: ButtonsMessage) returns (r: Outcome<SendMessageResponse>)
    modifies client.http
    ensures client.http.closed == old(client.http.closed)
    ensures client.http.calls == old(client.http.calls) +
      [MessagesCall(client, m.base.phoneNumberId,
         InteractiveBody(m.base, "button", ButtonsAction(m.buttons), Some(m.bodyText), m.footerText, HeaderOf(m.header)))]
    ensures r == Validated(Finish(client.LastResponse(), client.parseJson), ValidateSendMessageResponse)
  {
    r := SendInteractive(client, m.base, "button", ButtonsAction(m.buttons), Some(m.bodyText), m.footerText, HeaderOf(m.header));
  }

  /** One section of `send_interactive_list`: its rows, and its title only when truthy. */
  function ListSectionJson(s: ListSection): Json {
    JObj([("rows", JArr(seq(|s.rows|, i requires 0 <= i < |s.rows| => JObj(RowDump(s.rows[i])))))] +
         (if Given(s.title) then [("title", JStr(s.title.value))] else []))
  }

  function ListSectionsSpec(sections: seq<ListSection>): seq<Json> {
    seq(|sections|, i requires 0 <= i < |sections| => ListSectionJson(sections[i]))
  }

  /** The loop of `send_interactive_list` that builds the sections. */
  method BuildListSections(sections: seq<ListSection>) returns (r: seq<Json>)
    ensures r == ListSectionsSpec(sections)
  {
    r := [];
    for i := 0 to |sections|
      invariant r == ListSectionsSpec(sections[..i])
    {
      var s := sections[i];
      var rows := seq(|s.rows|, k requires 0 <= k < |s.rows| => JObj(RowDump(s.rows[k])));
      var sec := [("rows", JArr(rows))];
      if Given(s.title) {
        sec := sec + [("title", JStr(s.title.value))];
      }
      assert JObj(sec) == ListSectionJson(s);
      r := r + [JObj(sec)];
    }
    assert sections[..|sections|] == sections;
  }

  function ListAction(m: ListMessage): Fields {
    [("button", JStr(m.buttonText)), ("sections", JArr(ListSectionsSpec(m.sections)))]
  }

  /** `send_interactive_list`. */
  method SendList(client: WhatsAppClient, m: ListMessage) returns (r: Outcome<SendMessageResponse>)
    modifies client.http
    ensures client.http.closed == old(client.http.closed)
    ensures client.http.calls == old(client.http.calls) +
      [MessagesCall(client, m.base.phoneNumberId,
         InteractiveBody(m.base, "list", ListAction(m), Some(m.bodyText), m.footerText, HeaderOf(m.header)))]
    ensures r == Validated(Finish(client.LastResponse(), client.parseJson), ValidateSendMessageResponse)
  {
    var sections := BuildListSections(m.sections);
    var action := [("button", JStr(m.buttonText)), ("sections", JArr(sections))];
    r := SendInteractive(client, m.base, "list", action, Some(m.bodyText), m.footerText, HeaderOf(m.header));
  }

  function ProductAction(m: ProductMessage): Fields {
    [("catalog_id", JStr(m.catalogId)), ("product_retailer_id", JStr(m.productRetailerId))]
  }

  /** `send_interactive_product`: no header is passed. */
  method SendProduct(client: WhatsAppClient, m: ProductMessage) returns (r: Outcome<SendMessageResponse>)
    modifies client.http
    ensures client.http.closed == old(client.http.closed)
    ensures client.http.calls == old(client.http.calls) +
      [MessagesCall(client, m.base.phoneNumberId, InteractiveBody(m.base, "product", ProductAction(m), m.bodyText, m.footerText, None))]
    ensures r == Validated(Finish(client.LastResponse(), client.parseJson), ValidateSendMessageResponse)
  {
    r := SendInteractive(client, m.base, "product", ProductAction(m), m.bodyText, m.footerText, None);
  }

  /** One section of `send_interactive_product_list`. */
  function ProductSectionJson(s: ProductSection): Json {
    JObj([("title", JStr(s.title)),
          ("product_items", JArr(seq(|s.productItems|, i requires 0 <= i < |s.productItems| =>
             JObj([("product_retailer_id", JStr(s.productItems[i]))]))))])
  }

  function ProductSectionsSpec(sections: seq<ProductSection>): seq<Json> {
    seq(|sections|, i requires 0 <= i < |sections| => ProductSectionJson(sections[i]))
  }

  /** The loop of `send_interactive_product_list` that builds the sections. */
  method BuildProductSections(sections: seq<ProductSection>) returns (r: seq<Json>)
    ensures r == ProductSectionsSpec(sections)
  {
    r := [];
    for i := 0 to |sections|
      invariant r == ProductSectionsSpec(sections[..i])
    {
      r := r + [ProductSectionJson(sections[i])];
    }
    assert sections[..|sections|] == sections;
  }

  function ProductListAction(m: ProductListMessage): Fields {
    [("catalog_id", JStr(m.catalogId)), ("sections", JArr(ProductSectionsSpec(m.sections)))]
  }

  /** `send_interactive_product_list`: the header is required, so always sent. */
  method SendProductList(client: WhatsAppClient, m: ProductListMessage) returns (r: Outcome<SendMessageResponse>)
    modifies client.http
    ensures client.http.closed == old(client.http.closed)
    ensures client.http.calls == old(client.http.calls) +
      [MessagesCall(client, m.base.phoneNumberId,
         InteractiveBody(m.base, "product_list", ProductListAction(m), Some(m.bodyText), m.footerText, Some(HeaderDump(m.header))))]
    ensures r == Validated(Finish(client.LastResponse(), client.parseJson), ValidateSendMessageResponse)
  {
    var sections := BuildProductSections(m.sections);
    var action := [("catalog_id", JStr(m.catalogId)), ("sections", JArr(sections))];
    r := SendInteractive(client, m.base, "product_list", action, Some(m.bodyText), m.footerText, Some(HeaderDump(m.header)));
  }

  function FlowAction(m: FlowMessage): Fields {
    [("name", JStr("flow")), ("parameters", JObj(FlowParametersDump(m.parameters)))]
  }

  /** `send_interactive_flow`. */
  method SendFlow(client: WhatsAppClient, m: FlowMessage) returns (r: Outcome<SendMessageResponse>)
    modifies client.http
    ensures client.http.closed == old(client.http.closed)
    ensures client.http.calls == old(client.http.calls) +
      [MessagesCall(client, m.base.phoneNumberId,
         InteractiveBody(m.base, "flow", FlowAction(m), Some(m.bodyText), m.footerText, HeaderOf(m.header)))]
    ensures r == Validated(Finish(client.LastResponse(), client.parseJson), ValidateSendMessageResponse)
  {
    r := SendInteractive(client, m.base, "flow", FlowAction(m), Some(m.bodyText), m.footerText, HeaderOf(m.header));
  }

  function CtaUrlAction(m: CtaUrlMessage): Fields {
    [("name", JStr("cta_url")), ("parameters", JObj([("display_text", JStr(m.displayText)), ("url", JStr(m.url))]))]
  }

  /** `send_interactive_cta_url`. */
  method SendCtaUrl(client: WhatsAppClient, m: CtaUrlMessage) returns (r: Outcome<SendMessageResponse>)
    modifies client.http
    ensures client.http.closed == old(client.http.closed)
    ensures client.http.calls == old(client.http.calls) +
      [MessagesCall(client, m.base.phoneNumberId,
         InteractiveBody(m.base, "cta_url", CtaUrlAction(m), Some(m.bodyText), m.footerText, HeaderOf(m.header)))]
    ensures r == Validated(Finish(client.LastResponse(), client.parseJson), ValidateSendMessageResponse)
  {
    r := SendInteractive(client, m.base, "cta_url", CtaUrlAction(m), Some(m.bodyText), m.footerText, HeaderOf(m.header));
  }

  /** `send_interactive_location_request`: the action names the request only; its parameters are not sent. */
  method SendLocationRequest(client: WhatsAppClient, m: LocationRequestMessage) returns (r: Outcome<SendMessageResponse>)
    modifies client.http
    ensures client.http.closed == old(client.http.closed)
    ensures client.http.calls == old(client.http.calls) +
      [MessagesCall(client, m.base.phoneNumberId,
         InteractiveBody(m.base, "location_request_message", [("name", JStr("send_location"))], Some(m.bodyText), m.footerText, None))]
    ensures r == Validated(Finish(client.LastResponse(), client.parseJson), ValidateSendMessageResponse)
  {
    r := SendInteractive(client, m.base, "location_request_message", [("name", JStr("send_location"))], Some(m.bodyText), m.footerText, None);
  }

  /** The catalog action: parameters only when a thumbnail product id is given and non-empty. */
  function CatalogAction(m: CatalogMessage): Fields {
    [("name", JStr("catalog_message"))] +
    (if m.parameters.Some? && Given(m.parameters.value) then
       [("parameters", JObj([("thumbnail_product_retailer_id", JStr(m.parameters.value.value))]))]
     else [])
  }

  /** `send_interactive_catalog`: no footer and no header. */
  method SendCatalog(client: WhatsAppClient, m: CatalogMessage) returns (r: Outcome<SendMessageResponse>)
    modifies client.http
    ensures client.http.closed == old(client.http.closed)
    ensures client.http.calls == old(client.http.calls) +
      [MessagesCall(client, m.base.phoneNumberId, InteractiveBody(m.base, "catalog_message", CatalogAction(m), m.bodyText, None, None))]
    ensures r == Validated(Finish(client.LastResponse(), client.parseJson), ValidateSendMessageResponse)
  {
    var action := [("name", JStr("catalog_message"))];
    if m.parameters.Some? && Given(m.parameters.value) {
      action := action + [("parameters", JObj([("thumbnail_product_retailer_id", JStr(m.parameters.value.value))]))];
    }
    assert action == CatalogAction(m);
    r := SendInteractive(client, m.base, "catalog_message", action, m.bodyText, None, None);
  }

  /** The body of `mark_read`. */
  function MarkReadBody(input: MarkReadInput): Fields {
    [("messaging_product", JStr("whatsapp")), ("status", JStr("read")), ("message_id", JStr(input.messageId))]
  }

  /** `mark_read`: returns the decoded response as it is, without model validation. */
  method MarkRead(client: WhatsAppClient, input: MarkReadInput) returns (r: Outcome<Json>)
    modifies client.http
    ensures client.http.closed == old(client.http.closed)
    ensures client.http.calls == old(client.http.calls) + [MessagesCall(client, input.phoneNumberId, MarkReadBody(input))]
    ensures r == Finish(client.LastResponse(), client.parseJson)
  {
    r := client.Post(input.phoneNumberId + "/messages", Some(JObj(MarkReadBody(input))), None, None);
  }

  // ---------------------------------------------------------------------
  // Properties of the interactive bodies
  // ---------------------------------------------------------------------

  /**
   * A validated buttons message posts between one and three reply buttons,
   * in input order, each with an id of at most 256 and a title of at most
   * 20 characters.
   */
  lemma ButtonsOnTheWire(base: BaseMessage, bodyText: string, footerText: Option<string>,
                         header: Option<InteractiveHeader>, buttons: seq<InteractiveButton>)
    requires forall i :: 0 <= i < |buttons| ==> MakeButton(buttons[i].id, buttons[i].title).Ok?
    requires MakeButtonsMessage(base, bodyText, footerText, header, buttons).Ok?
    ensures var items := ButtonsAction(buttons)[0].1.items;
      1 <= |items| <= 3 &&
      forall i :: 0 <= i < |items| ==>
        items[i] == JObj([("type", JStr("reply")), ("reply", JObj([("id", JStr(buttons[i].id)), ("title", JStr(buttons[i].title))]))]) &&
        |buttons[i].id| <= 256 && |buttons[i].title| <= 20
  {
  }

  /** Each list section carries its rows, and a title exactly when the title is truthy. */
  lemma ListSectionTitles(s: ListSection)
    ensures Get(ListSectionJson(s).fields, "title") == (if Given(s.title) then Some(JStr(s.title.value)) else None)
    ensures Get(ListSectionJson(s).fields, "rows").Some?
  {
    var rows := JArr(seq(|s.rows|, i requires 0 <= i < |s.rows| => JObj(RowDump(s.rows[i]))));
    var tt := if Given(s.title) then [("title", JStr(s.title.value))] else [];
    GetConsHead("rows", rows, tt);
    GetConsTail("rows", rows, tt, "title");
    if Given(s.title) {
      GetConsHead("title", JStr(s.title.value), []);
    }
  }

  /** The catalog action carries parameters exactly when the thumbnail product id is truthy. */
  lemma CatalogParameters(m: CatalogMessage)
    ensures Get(CatalogAction(m), "parameters").Some? <==> m.parameters.Some? && Given(m.parameters.value)
    ensures Get(CatalogAction(m), "name") == Some(JStr("catalog_message"))
  {
    var tail := CatalogAction(m)[1..];
    assert CatalogAction(m) == [("name", JStr("catalog_message"))] + tail;
    GetConsHead("name", JStr("catalog_message"), tail);
    GetConsTail("name", JStr("catalog_message"), tail, "parameters");
    if m.parameters.Some? && Given(m.parameters.value) {
      GetConsHead("parameters", tail[0].1, []);
      assert tail == [tail[0]] + [];
    }
  }

  /** The location request's own message is validated but never sent: two requests that differ only there post the same body. */
  lemma LocationRequestIgnoresParameters(m: LocationRequestMessage, requestMessage: string)
    ensures InteractiveBody(m.base, "location_request_message", [("name", JStr("send_location"))], Some(m.bodyText), m.footerText, None) ==
      InteractiveBody(m.(requestMessage := requestMessage).base, "location_request_message", [("name", JStr("send_location"))],
                      Some(m.(requestMessage := requestMessage).bodyText), m.(requestMessage := requestMessage).footerText, None)
  {
  }

  /** Product and location-request messages never carry a header; a product list always does. */
  lemma HeaderRules(p: ProductMessage, l: LocationRequestMessage, pl: ProductListMessage)
    ensures Get(InteractiveSpec("product", ProductAction(p), p.bodyText, p.footerText, None), "header").None?
    ensures Get(InteractiveSpec("location_request_message", [("name", JStr("send_location"))], Some(l.bodyText), l.footerText, None), "header").None?
    ensures Get(InteractiveSpec("product_list", ProductListAction(pl), Some(pl.bodyText), pl.footerText, Some(HeaderDump(pl.header))), "header").Some?
  {
  }
}
