/**
 * Mapping validated webhook models to events and emitting them
 * (events/dispatcher.py). The `EventEmitter` is a sink that records every
 * emitted event in order; `json.loads` is the parameter `decode`, which
 * gives `None` when the text is not JSON.
 */
module Dispatcher {
  import opened Wrappers
  import opened JsonValues
  import opened PyText
  import opened Types
  import opened Events

  /** `_base_kwargs(msg, phone_number_id)`. */
  function BaseOf(msg: WebhookMessage, pid: Option<string>): (b: MessageBase)
    ensures b.phoneNumberId == pid && b.messageId == msg.id && b.timestamp == msg.timestamp
    ensures b.fromNumber == msg.sender.GetOr("")
    ensures b.context.Some? <==> msg.context.Some? && ContextDump(msg.context.value) != []
    ensures b.context.Some? ==> b.context.value == ContextDump(msg.context.value)
  {
    var ctx := if msg.context.Some? then ContextDump(msg.context.value) else [];
    MessageBase(pid, msg.id, msg.timestamp,
      if msg.sender.Some? && msg.sender.value != "" then msg.sender.value else "",
      if ctx != [] then Some(ctx) else None)
  }

  /** `x or {}` on an optional payload dict. */
  function OrEmpty(p: Option<Fields>): Fields {
    p.GetOr([])
  }

  /** `_map_interactive(msg, base)`: a reply that is not a dict raises AttributeError. */
  function MapInteractive(msg: WebhookMessage, base: MessageBase, decode: string -> Option<Json>): (r: Result<Event>)
    ensures var interactive := OrEmpty(msg.payloads.interactive);
      var itype := GetOr(interactive, "type", NoString);
      r.Err? <==>
        (itype in {JStr("button_reply"), JStr("list_reply"), JStr("nfm_reply")} &&
         !GetOr(interactive, itype.s, JObj([])).JObj?)
    ensures r.Err? ==> r.fault == AttributeError
    ensures r.Ok? ==> r.value.MessageEvent? && r.value.base == base
  {
    var interactive := OrEmpty(msg.payloads.interactive);
    var itype := GetOr(interactive, "type", NoString);
    if itype == JStr("button_reply") then
      var reply :- AsDict(GetOr(interactive, "button_reply", JObj([])));
      Ok(MessageEvent(base, ButtonReply(GetOr(reply, "id", NoString), GetOr(reply, "title", NoString))))
    else if itype == JStr("list_reply") then
      var reply :- AsDict(GetOr(interactive, "list_reply", JObj([])));
      Ok(MessageEvent(base, ListReply(GetOr(reply, "id", NoString), GetOr(reply, "title", NoString),
        GetOr(reply, "description", JNull))))
    else if itype == JStr("nfm_reply") then
      var reply :- AsDict(GetOr(interactive, "nfm_reply", JObj([])));
      Ok(MessageEvent(base, FlowResponse(ResponseJson(GetOr(reply, "response_json", JObj([])), decode),
        GetOr(reply, "flow_token", JNull))))
    else
      Ok(MessageEvent(base, UnknownMessageReceived("interactive:" + PyStr(itype), interactive)))
  }

  /** A string `response_json` is decoded, `{}` when it is not JSON; anything else is kept. */
  function ResponseJson(j: Json, decode: string -> Option<Json>): (r: Json)
    ensures !j.JStr? ==> r == j
    ensures j.JStr? ==> r == decode(j.s).GetOr(JObj([]))
  {
    if j.JStr? then decode(j.s).GetOr(JObj([])) else j
  }

  /**
   * `_map_message(msg, phone_number_id)`: every arm of its `match msg.type`
   * builds an event from the base fields, except `interactive`, which has
   * its own dispatch.
   */
  function MapMessage(msg: WebhookMessage, pid: Option<string>, decode: string -> Option<Json>): (r: Result<Event>)
    ensures r.Ok? ==> r.value.MessageEvent? && r.value.base == BaseOf(msg, pid)
    ensures msg.msgType != "interactive" ==> r.Ok? && ClassOf(r.value) == ClassForType(msg.msgType)
    ensures r.Err? ==> msg.msgType == "interactive" && r.fault == AttributeError
  {
    var base := BaseOf(msg, pid);
    if msg.msgType == "interactive" then MapInteractive(msg, base, decode)
    else
      KindOfClass(msg, base);
      Ok(MessageEvent(base, KindOf(msg)))
  }

  /**
   * The type-specific fields of the non-interactive arms, read with
   * `payload or {}` and `.get` defaults. The arm is chosen by the class the
   * type names (`ClassForType`, the same string cases as the `match`).
   */
  function KindOf(msg: WebhookMessage): (r: MessageKind)
    ensures r.UnknownMessageReceived? <==> ClassForType(msg.msgType) == UnknownClass
    ensures ClassForType(msg.msgType) == UnknownClass ==> r == UnknownMessageReceived(msg.msgType, MessageDump(msg))
  {
    var p := msg.payloads;
    match ClassForType(msg.msgType)
    case TextClass =>
      TextReceived(GetOr(OrEmpty(p.text), "body", NoString), false)
    case ImageClass =>
      var d := OrEmpty(p.image);
      ImageReceived(GetOr(d, "id", NoString), GetOr(d, "mime_type", NoString),
        GetOr(d, "sha256", NoString), GetOr(d, "caption", JNull))
    case VideoClass =>
      var d := OrEmpty(p.video);
      VideoReceived(GetOr(d, "id", NoString), GetOr(d, "mime_type", NoString),
        GetOr(d, "sha256", NoString), GetOr(d, "caption", JNull))
    case AudioClass =>
      var d := OrEmpty(p.audio);
      AudioReceived(GetOr(d, "id", NoString), GetOr(d, "mime_type", NoString),
        GetOr(d, "sha256", NoString), GetOr(d, "voice", NoBool))
    case DocumentClass =>
      var d := OrEmpty(p.document);
      DocumentReceived(GetOr(d, "id", NoString), GetOr(d, "mime_type", NoString),
        GetOr(d, "sha256", NoString), GetOr(d, "filename", JNull), GetOr(d, "caption", JNull))
    case StickerClass =>
      var d := OrEmpty(p.sticker);
      StickerReceived(GetOr(d, "id", NoString), GetOr(d, "mime_type", NoString), GetOr(d, "animated", NoBool))
    case LocationClass =>
      var d := OrEmpty(p.location);
      LocationReceived(GetOr(d, "latitude", NoFloat), GetOr(d, "longitude", NoFloat),
        GetOr(d, "name", JNull), GetOr(d, "address", JNull))
    case ContactsClass =>
      ContactsReceived(p.contacts.GetOr([]))
    case ReactionClass =>
      var d := OrEmpty(p.reaction);
      ReactionReceived(GetOr(d, "emoji", JNull), GetOr(d, "message_id", NoString))
    case OrderClass =>
      var d := OrEmpty(p.order);
      OrderReceived(GetOr(d, "catalog_id", NoString), GetOr(d, "product_items", JArr([])), GetOr(d, "order_text", JNull))
    case _ =>
      UnknownMessageReceived(msg.msgType, MessageDump(msg))
  }

  /** The status fields every status event carries. */
  function StatusBaseOf(s: MessageStatusUpdate, pid: Option<string>): (b: StatusBase)
    ensures b.phoneNumberId == pid && b.messageId == s.id && b.timestamp == s.timestamp
    ensures b.recipientId == s.recipientId.GetOr("")
    ensures b.conversation == s.conversation && b.pricing == s.pricing
  {
    StatusBase(pid, s.id, s.timestamp,
      if s.recipientId.Some? && s.recipientId.value != "" then s.recipientId.value else "",
      s.conversation, s.pricing)
  }

  /** The `match status.status` in `dispatch_webhook`; an unknown status is reported as sent. */
  function MapStatus(s: MessageStatusUpdate, pid: Option<string>): (r: Event)
    ensures r.StatusEvent? && r.status == StatusBaseOf(s, pid)
    ensures ClassOf(r) ==
      if s.status == "delivered" then DeliveredClass
      else if s.status == "read" then ReadClass
      else if s.status == "failed" then FailedClass
      else SentClass
    ensures s.status == "failed" ==> r.update == MessageFailed(s.errors.GetOr([]))
  {
    var base := StatusBaseOf(s, pid);
    match s.status
    case "sent" => StatusEvent(base, MessageSent)
    case "delivered" => StatusEvent(base, MessageDelivered)
    case "read" => StatusEvent(base, MessageRead)
    case "failed" => StatusEvent(base, MessageFailed(s.errors.GetOr([])))
    case _ => StatusEvent(base, MessageSent)
  }

  // ---------------------------------------------------------------------
  // dispatch_webhook: messages first, then statuses, each in list order
  // ---------------------------------------------------------------------

  /** The event emitter: every emitted event is appended, in order. */
  class Sink {
    var events: seq<Event>

    constructor ()
      ensures events == []
    {
      events := [];
    }

    method Emit(e: Event)
      modifies this
      ensures events == old(events) + [e]
    {
      events := events + [e];
    }
  }

  /** The events emitted and the exception, if any, that ended the dispatch. */
  datatype Dispatch = Dispatch(events: seq<Event>, fault: Option<Fault>)

  /** `_map_message(·, phone_number_id)` as the loop applies it. */
  function MapperFor(pid: Option<string>, decode: string -> Option<Json>): WebhookMessage -> Result<Event> {
    msg => MapMessage(msg, pid, decode)
  }

  /** The message loop under a mapping `f`: it stops at the first message `f` cannot map. */
  function MessageEvents(msgs: seq<WebhookMessage>, f: WebhookMessage -> Result<Event>): (r: Dispatch)
    ensures |r.events| <= |msgs|
    ensures forall i :: 0 <= i < |r.events| ==> f(msgs[i]) == Ok(r.events[i])
    ensures r.fault.None? ==> |r.events| == |msgs|
    ensures r.fault.Some? ==> |r.events| < |msgs| && f(msgs[|r.events|]) == Err(r.fault.value)
  {
    if |msgs| == 0 then Dispatch([], None)
    else
      var prior := MessageEvents(msgs[..|msgs| - 1], f);
      if prior.fault.Some? then prior
      else
        match f(msgs[|msgs| - 1])
        case Ok(e) => Dispatch(prior.events + [e], None)
        case Err(x) => Dispatch(prior.events, Some(x))
  }

  function StatusEvents(statuses: seq<MessageStatusUpdate>, pid: Option<string>): (r: seq<Event>)
    ensures |r| == |statuses| && forall i :: 0 <= i < |statuses| ==> r[i] == MapStatus(statuses[i], pid)
  {
    seq(|statuses|, i requires 0 <= i < |statuses| => MapStatus(statuses[i], pid))
  }

  /** What `dispatch_webhook(webhook, emitter)` emits. */
  function DispatchSpec(w: NormalizedWebhook, decode: string -> Option<Json>): (r: Dispatch)
    ensures r.fault.Some? ==> r.fault == Some(AttributeError) && |r.events| < |w.messages|
    ensures forall i :: 0 <= i < |r.events| && i < |w.messages| ==>
      MapMessage(w.messages[i], w.phoneNumberId, decode) == Ok(r.events[i])
    ensures r.fault.None? ==>
      |r.events| == |w.messages| + |w.statuses| &&
      forall j :: 0 <= j < |w.statuses| ==> r.events[|w.messages| + j] == MapStatus(w.statuses[j], w.phoneNumberId)
  {
    var f := MapperFor(w.phoneNumberId, decode);
    var r := DispatchWith(w, f);
    assert forall msg :: f(msg) == MapMessage(msg, w.phoneNumberId, decode);
    r
  }

  /** Both loops under a message mapping `f`: statuses follow only when every message mapped. */
  function DispatchWith(w: NormalizedWebhook, f: WebhookMessage -> Result<Event>): (r: Dispatch)
    ensures r.fault.Some? ==> |r.events| < |w.messages| && f(w.messages[|r.events|]) == Err(r.fault.value)
    ensures forall i :: 0 <= i < |r.events| && i < |w.messages| ==> f(w.messages[i]) == Ok(r.events[i])
    ensures r.fault.None? ==>
      |r.events| == |w.messages| + |w.statuses| &&
      forall j :: 0 <= j < |w.statuses| ==> r.events[|w.messages| + j] == MapStatus(w.statuses[j], w.phoneNumberId)
  {
    var m := MessageEvents(w.messages, f);
    if m.fault.Some? then m else Dispatch(m.events + StatusEvents(w.statuses, w.phoneNumberId), None)
  }

  /** The first loop of `dispatch_webhook`. */
  method EmitMessages(msgs: seq<WebhookMessage>, f: WebhookMessage -> Result<Event>, sink: Sink)
    returns (fault: Option<Fault>)
    modifies sink
    ensures sink.events == old(sink.events) + MessageEvents(msgs, f).events
    ensures fault == MessageEvents(msgs, f).fault
  {
    ghost var start := sink.events;
    var i := 0;
    while i < |msgs|
      invariant 0 <= i <= |msgs|
      invariant MessageEvents(msgs[..i], f).fault.None?
      invariant sink.events == start + MessageEvents(msgs[..i], f).events
    {
      var r := f(msgs[i]);
      MessageEventsSnoc(msgs, i, f);
      if r.Err? {
        MessageEventsStop(msgs, i + 1, f);
        return Some(r.fault);
      }
      sink.Emit(r.value);
      i := i + 1;
    }
    assert msgs[..i] == msgs;
    return None;
  }

  /** The second loop of `dispatch_webhook`. */
  method EmitStatuses(statuses: seq<MessageStatusUpdate>, pid: Option<string>, sink: Sink)
    modifies sink
    ensures sink.events == old(sink.events) + StatusEvents(statuses, pid)
  {
    ghost var start := sink.events;
    var j := 0;
    while j < |statuses|
      invariant 0 <= j <= |statuses|
      invariant sink.events == start + StatusEvents(statuses[..j], pid)
    {
      sink.Emit(MapStatus(statuses[j], pid));
      assert StatusEvents(statuses[..j + 1], pid) == StatusEvents(statuses[..j], pid) + [MapStatus(statuses[j], pid)];
      j := j + 1;
    }
    assert statuses[..j] == statuses;
  }

  /** `dispatch_webhook(webhook, emitter)`: returns the exception that stopped it, if any. */
  method DispatchWebhook(w: NormalizedWebhook, sink: Sink, decode: string -> Option<Json>) returns (fault: Option<Fault>)
    modifies sink
    ensures sink.events == old(sink.events) + DispatchSpec(w, decode).events
    ensures fault == DispatchSpec(w, decode).fault
  {
    fault := RunDispatch(w, MapperFor(w.phoneNumberId, decode), sink);
  }

  /** The body of `dispatch_webhook`, for any message mapping. */
  method RunDispatch(w: NormalizedWebhook, f: WebhookMessage -> Result<Event>, sink: Sink) returns (fault: Option<Fault>)
    modifies sink
    ensures sink.events == old(sink.events) + DispatchWith(w, f).events
    ensures fault == DispatchWith(w, f).fault
  {
    ghost var m := MessageEvents(w.messages, f);
    ghost var spec := DispatchWith(w, f);
    assert spec == if m.fault.Some? then m else Dispatch(m.events + StatusEvents(w.statuses, w.phoneNumberId), None);
    fault := EmitMessages(w.messages, f, sink);
    if fault.None? {
      EmitStatuses(w.statuses, w.phoneNumberId, sink);
      assert sink.events == old(sink.events) + m.events + StatusEvents(w.statuses, w.phoneNumberId);
    }
  }

  /** One more message: its event is emitted, or its exception ends the loop. */
  lemma MessageEventsSnoc(msgs: seq<WebhookMessage>, i: nat, f: WebhookMessage -> Result<Event>)
    requires i < |msgs|
    requires MessageEvents(msgs[..i], f).fault.None?
    ensures MessageEvents(msgs[..i + 1], f) ==
      match f(msgs[i])
      case Ok(e) => Dispatch(MessageEvents(msgs[..i], f).events + [e], None)
      case Err(x) => Dispatch(MessageEvents(msgs[..i], f).events, Some(x))
  {
    assert msgs[..i + 1][..i] == msgs[..i];
  }

  /** Once the message loop has failed, later messages change nothing. */
  lemma {:induction false} MessageEventsStop(msgs: seq<WebhookMessage>, k: nat, f: WebhookMessage -> Result<Event>)
    requires k <= |msgs|
    requires MessageEvents(msgs[..k], f).fault.Some?
    ensures MessageEvents(msgs, f) == MessageEvents(msgs[..k], f)
    decreases |msgs| - k
  {
    if k < |msgs| {
      assert msgs[..k + 1][..k] == msgs[..k];
      MessageEventsStop(msgs, k + 1, f);
    } else {
      assert msgs[..k] == msgs;
    }
  }

  // ---------------------------------------------------------------------
  // Properties of the mapping
  // ---------------------------------------------------------------------

  /** The class each message type maps to, as a reference table; `interactive` is decided by its subtype. */
  function ClassForType(t: string): (r: EventClass)
    ensures r == UnknownClass <==>
      t !in {"text", "image", "video", "audio", "document", "sticker", "location", "contacts", "reaction", "order"}
    ensures IsMessageClass(r) && r !in {ButtonReplyClass, ListReplyClass, FlowResponseClass}
  {
    if t == "text" then TextClass
    else if t == "image" then ImageClass
    else if t == "video" then VideoClass
    else if t == "audio" then AudioClass
    else if t == "document" then DocumentClass
    else if t == "sticker" then StickerClass
    else if t == "location" then LocationClass
    else if t == "contacts" then ContactsClass
    else if t == "reaction" then ReactionClass
    else if t == "order" then OrderClass
    else UnknownClass
  }

  /**
   * `_map_message` is total on every type but `interactive`: each known type
   * gives its own class and any other type the catch-all carrying the type.
   * Every event carries the base fields of the message.
   */
  lemma MapMessageByType(msg: WebhookMessage, pid: Option<string>, decode: string -> Option<Json>)
    requires msg.msgType != "interactive"
    ensures MapMessage(msg, pid, decode).Ok?
    ensures MapMessage(msg, pid, decode).value.MessageEvent?
    ensures MapMessage(msg, pid, decode).value.base == BaseOf(msg, pid)
    ensures ClassOf(MapMessage(msg, pid, decode).value) == ClassForType(msg.msgType)
    ensures ClassForType(msg.msgType) == UnknownClass ==>
      MapMessage(msg, pid, decode).value.message == UnknownMessageReceived(msg.msgType, MessageDump(msg))
  {
    assert MapMessage(msg, pid, decode) == Ok(MessageEvent(BaseOf(msg, pid), KindOf(msg)));
  }

  /** Every type takes the arm of its own class, the catch-all included. */
  lemma KindOfClass(msg: WebhookMessage, base: MessageBase)
    ensures ClassOf(MessageEvent(base, KindOf(msg))) == ClassForType(msg.msgType)
  {
    if ClassForType(msg.msgType) != UnknownClass {
      KindOfKnown(msg, base);
    } else {
      UnknownClassOf(base, KindOf(msg));
    }
  }

  lemma UnknownClassOf(base: MessageBase, k: MessageKind)
    requires k.UnknownMessageReceived?
    ensures ClassOf(MessageEvent(base, k)) == UnknownClass
  {
  }

  /** A known type takes the arm of its own class. */
  lemma KindOfKnown(msg: WebhookMessage, base: MessageBase)
    requires ClassForType(msg.msgType) != UnknownClass
    ensures ClassOf(MessageEvent(base, KindOf(msg))) == ClassForType(msg.msgType)
  {
    var c := ClassForType(msg.msgType);
    match c
    case TextClass => assert KindOf(msg).TextReceived?;
    case ImageClass => assert KindOf(msg).ImageReceived?;
    case VideoClass => assert KindOf(msg).VideoReceived?;
    case AudioClass => assert KindOf(msg).AudioReceived?;
    case DocumentClass => assert KindOf(msg).DocumentReceived?;
    case StickerClass => assert KindOf(msg).StickerReceived?;
    case LocationClass => assert KindOf(msg).LocationReceived?;
    case ContactsClass => assert KindOf(msg).ContactsReceived?;
    case ReactionClass => assert KindOf(msg).ReactionReceived?;
    case OrderClass => assert KindOf(msg).OrderReceived?;
    case _ =>
  }

  /** The only exception: an interactive reply entry that is present but not a dict. */
  lemma MapMessageFailure(msg: WebhookMessage, pid: Option<string>, decode: string -> Option<Json>)
    requires MapMessage(msg, pid, decode).Err?
    ensures msg.msgType == "interactive" && MapMessage(msg, pid, decode).fault == AttributeError
    ensures var itype := GetOr(OrEmpty(msg.payloads.interactive), "type", NoString);
      itype in {JStr("button_reply"), JStr("list_reply"), JStr("nfm_reply")} &&
      !GetOr(OrEmpty(msg.payloads.interactive), itype.s, JObj([])).JObj?
  {
  }

  /** A known type whose payload entry is missing still gives its class, with every field at its default. */
  lemma MissingPayloadDefaults(msg: WebhookMessage, pid: Option<string>, decode: string -> Option<Json>)
    requires msg.payloads == NoPayloads
    requires msg.msgType != "interactive" && ClassForType(msg.msgType) != UnknownClass
    ensures MapMessage(msg, pid, decode) ==
      Ok(MessageEvent(BaseOf(msg, pid), DefaultKind(ClassForType(msg.msgType))))
  {
    assert MapMessage(msg, pid, decode) == Ok(MessageEvent(BaseOf(msg, pid), KindOf(msg)));
    KindOfNoPayload(msg);
  }

  lemma KindOfNoPayload(msg: WebhookMessage)
    requires msg.payloads == NoPayloads && ClassForType(msg.msgType) != UnknownClass
    ensures KindOf(msg) == DefaultKind(ClassForType(msg.msgType))
  {
    var c := ClassForType(msg.msgType);
    match c
    case TextClass => assert KindOf(msg) == DefaultKind(TextClass);
    case ImageClass => assert KindOf(msg) == DefaultKind(ImageClass);
    case VideoClass => assert KindOf(msg) == DefaultKind(VideoClass);
    case AudioClass => assert KindOf(msg) == DefaultKind(AudioClass);
    case DocumentClass => assert KindOf(msg) == DefaultKind(DocumentClass);
    case StickerClass => assert KindOf(msg) == DefaultKind(StickerClass);
    case LocationClass => assert KindOf(msg) == DefaultKind(LocationClass);
    case ContactsClass => assert KindOf(msg) == DefaultKind(ContactsClass);
    case ReactionClass => assert KindOf(msg) == DefaultKind(ReactionClass);
    case OrderClass => assert KindOf(msg) == DefaultKind(OrderClass);
    case _ =>
  }

  /**
   * Interactive subtypes: `button_reply`, `list_reply` and `nfm_reply` give
   * their classes with the reply's fields; any other subtype (a missing
   * `interactive` entry included) gives the catch-all tagged
   * "interactive:<type>" carrying the interactive dict.
   */
  lemma InteractiveSubtypes(msg: WebhookMessage, pid: Option<string>, decode: string -> Option<Json>, reply: Fields)
    requires msg.msgType == "interactive"
    ensures var interactive := OrEmpty(msg.payloads.interactive);
      var itype := GetOr(interactive, "type", NoString);
      var e := MapMessage(msg, pid, decode);
      && (itype == JStr("button_reply") && GetOr(interactive, "button_reply", JObj([])) == JObj(reply) ==>
            e == Ok(MessageEvent(BaseOf(msg, pid), ButtonReply(GetOr(reply, "id", NoString), GetOr(reply, "title", NoString)))))
      && (itype == JStr("list_reply") && GetOr(interactive, "list_reply", JObj([])) == JObj(reply) ==>
            e == Ok(MessageEvent(BaseOf(msg, pid), ListReply(GetOr(reply, "id", NoString), GetOr(reply, "title", NoString),
              GetOr(reply, "description", JNull)))))
      && (itype == JStr("nfm_reply") && GetOr(interactive, "nfm_reply", JObj([])) == JObj(reply) ==>
            e == Ok(MessageEvent(BaseOf(msg, pid), FlowResponse(ResponseJson(GetOr(reply, "response_json", JObj([])), decode),
              GetOr(reply, "flow_token", JNull)))))
      && (itype !in {JStr("button_reply"), JStr("list_reply"), JStr("nfm_reply")} ==>
            e == Ok(MessageEvent(BaseOf(msg, pid), UnknownMessageReceived("interactive:" + PyStr(itype), interactive))))
  {
  }

  /** A message with no `interactive` entry is an unknown "interactive:" event with an empty dict. */
  lemma InteractiveMissing(msg: WebhookMessage, pid: Option<string>, decode: string -> Option<Json>)
    requires msg.msgType == "interactive" && msg.payloads.interactive.None?
    ensures MapMessage(msg, pid, decode) == Ok(MessageEvent(BaseOf(msg, pid), UnknownMessageReceived("interactive:", [])))
  {
    assert GetOr([], "type", NoString) == NoString;
    assert PyStr(NoString) == "";
    assert "interactive:" + "" == "interactive:";
    InteractiveSubtypes(msg, pid, decode, []);
  }

  /** When every message maps, the loop emits one event per message, in order. */
  lemma {:induction false} MessageEventsAllOk(msgs: seq<WebhookMessage>, f: WebhookMessage -> Result<Event>)
    requires forall i :: 0 <= i < |msgs| ==> f(msgs[i]).Ok?
    ensures MessageEvents(msgs, f).fault.None?
    ensures |MessageEvents(msgs, f).events| == |msgs|
    ensures forall i :: 0 <= i < |msgs| ==> MessageEvents(msgs, f).events[i] == f(msgs[i]).value
  {
    if |msgs| > 0 {
      var init := msgs[..|msgs| - 1];
      assert forall i :: 0 <= i < |init| ==> init[i] == msgs[i];
      MessageEventsAllOk(init, f);
    }
  }

  /** A message that fails stops the loop with its exception; nothing after it is emitted. */
  lemma {:induction false} MessageEventsFirstFailure(msgs: seq<WebhookMessage>, f: WebhookMessage -> Result<Event>, k: nat)
    requires k < |msgs| && f(msgs[k]).Err?
    requires forall i :: 0 <= i < k ==> f(msgs[i]).Ok?
    ensures MessageEvents(msgs, f) == Dispatch(seq(k, i requires 0 <= i < k => f(msgs[i]).value), Some(f(msgs[k]).fault))
  {
    var pre := msgs[..k];
    assert forall i :: 0 <= i < k ==> pre[i] == msgs[i];
    MessageEventsAllOk(pre, f);
    MessageEventsSnoc(msgs, k, f);
    MessageEventsStop(msgs, k + 1, f);
  }

  /**
   * `dispatch_webhook` emits exactly one event per message and per status:
   * every message event first, then every status event, each in list order.
   */
  lemma DispatchOrder(w: NormalizedWebhook, decode: string -> Option<Json>)
    requires forall i :: 0 <= i < |w.messages| ==> MapMessage(w.messages[i], w.phoneNumberId, decode).Ok?
    ensures DispatchSpec(w, decode).fault.None?
    ensures |DispatchSpec(w, decode).events| == |w.messages| + |w.statuses|
    ensures forall i :: 0 <= i < |w.messages| ==>
      DispatchSpec(w, decode).events[i] == MapMessage(w.messages[i], w.phoneNumberId, decode).value
    ensures forall j :: 0 <= j < |w.statuses| ==>
      DispatchSpec(w, decode).events[|w.messages| + j] == MapStatus(w.statuses[j], w.phoneNumberId)
  {
    var f := MapperFor(w.phoneNumberId, decode);
    MessageEventsAllOk(w.messages, f);
  }

  /** Without interactive messages nothing can fail. */
  lemma DispatchWithoutInteractive(w: NormalizedWebhook, decode: string -> Option<Json>)
    requires forall i :: 0 <= i < |w.messages| ==> w.messages[i].msgType != "interactive"
    ensures DispatchSpec(w, decode).fault.None?
    ensures |DispatchSpec(w, decode).events| == |w.messages| + |w.statuses|
  {
    forall i | 0 <= i < |w.messages| ensures MapMessage(w.messages[i], w.phoneNumberId, decode).Ok? {
      MapMessageByType(w.messages[i], w.phoneNumberId, decode);
    }
    DispatchOrder(w, decode);
  }
}
