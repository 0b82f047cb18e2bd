/**
 * The webhook event classes (events/events.py). Every class is a frozen
 * dataclass, so an event is a value: `MessageEvent` and `StatusEvent` carry
 * the fields their base classes add, and `kind` the fields of the concrete
 * class. Fields that the dispatcher fills from an untyped webhook dict
 * (`dict.get`) hold a `Json` value.
 */
module Events {
  import opened Wrappers
  import opened JsonValues

  /** The fields `WhatsAppEvent` and `MessageEvent` add. */
  datatype MessageBase = MessageBase(
    phoneNumberId: Option<string>,
    messageId: string,
    timestamp: string,
    fromNumber: string,
    context: Option<Fields>)

  /** The concrete message event classes, with the fields each adds. */
  datatype MessageKind =
    | TextReceived(body: Json, previewUrl: bool)
    | ImageReceived(imageId: Json, mimeType: Json, sha256: Json, caption: Json)
    | VideoReceived(videoId: Json, mimeType: Json, sha256: Json, caption: Json)
    | AudioReceived(audioId: Json, mimeType: Json, sha256: Json, voice: Json)
    | DocumentReceived(documentId: Json, mimeType: Json, sha256: Json, filename: Json, caption: Json)
    | StickerReceived(stickerId: Json, mimeType: Json, animated: Json)
    | LocationReceived(latitude: Json, longitude: Json, name: Json, address: Json)
    | ContactsReceived(contacts: seq<Fields>)
    | ReactionReceived(emoji: Json, reactedMessageId: Json)
    | ButtonReply(buttonId: Json, buttonTitle: Json)
    | ListReply(listId: Json, listTitle: Json, listDescription: Json)
    | FlowResponse(responseJson: Json, flowToken: Json)
    | OrderReceived(catalogId: Json, productItems: Json, orderText: Json)
    | UnknownMessageReceived(rawType: string, rawData: Fields)

  /** The fields `WhatsAppEvent` and `StatusEvent` add. */
  datatype StatusBase = StatusBase(
    phoneNumberId: Option<string>,
    messageId: string,
    timestamp: string,
    recipientId: string,
    conversation: Option<Fields>,
    pricing: Option<Fields>)

  datatype StatusKind = MessageSent | MessageDelivered | MessageRead | MessageFailed(errors: seq<Fields>)

  /** An event of one of the concrete classes: a message event or a status event. */
  datatype Event =
    | MessageEvent(base: MessageBase, message: MessageKind)
    | StatusEvent(status: StatusBase, update: StatusKind)

  // ---------------------------------------------------------------------
  // Defaults: every field of every class has one
  // ---------------------------------------------------------------------

  const NoString := JStr("")
  const NoBool := JBool(false)
  const NoFloat := JFloat(0.0)

  const DefaultMessageBase := MessageBase(None, "", "", "", None)
  const DefaultStatusBase := StatusBase(None, "", "", "", None, None)

  /** The concrete event classes. */
  datatype EventClass =
    | TextClass | ImageClass | VideoClass | AudioClass | DocumentClass | StickerClass
    | LocationClass | ContactsClass | ReactionClass | ButtonReplyClass | ListReplyClass
    | FlowResponseClass | OrderClass | UnknownClass
    | SentClass | DeliveredClass | ReadClass | FailedClass

  /** The class of an event. */
  function ClassOf(e: Event): EventClass {
    match e
    case MessageEvent(_, k) =>
      (match k
       case TextReceived(_, _) => TextClass
       case ImageReceived(_, _, _, _) => ImageClass
       case VideoReceived(_, _, _, _) => VideoClass
       case AudioReceived(_, _, _, _) => AudioClass
       case DocumentReceived(_, _, _, _, _) => DocumentClass
       case StickerReceived(_, _, _) => StickerClass
       case LocationReceived(_, _, _, _) => LocationClass
       case ContactsReceived(_) => ContactsClass
       case ReactionReceived(_, _) => ReactionClass
       case ButtonReply(_, _) => ButtonReplyClass
       case ListReply(_, _, _) => ListReplyClass
       case FlowResponse(_, _) => FlowResponseClass
       case OrderReceived(_, _, _) => OrderClass
       case UnknownMessageReceived(_, _) => UnknownClass)
    case StatusEvent(_, k) =>
      (match k
       case MessageSent => SentClass
       case MessageDelivered => DeliveredClass
       case MessageRead => ReadClass
       case MessageFailed(_) => FailedClass)
  }

  /** `isinstance(e, MessageEvent)`: the message classes and the catch-all. */
  predicate IsMessageClass(c: EventClass) {
    !(c.SentClass? || c.DeliveredClass? || c.ReadClass? || c.FailedClass?)
  }

  /** The fields a class adds to its base, at their defaults. */
  function DefaultKind(c: EventClass): MessageKind
    requires IsMessageClass(c)
  {
    match c
    case TextClass => TextReceived(NoString, false)
    case ImageClass => ImageReceived(NoString, NoString, NoString, JNull)
    case VideoClass => VideoReceived(NoString, NoString, NoString, JNull)
    case AudioClass => AudioReceived(NoString, NoString, NoString, NoBool)
    case DocumentClass => DocumentReceived(NoString, NoString, NoString, JNull, JNull)
    case StickerClass => StickerReceived(NoString, NoString, NoBool)
    case LocationClass => LocationReceived(NoFloat, NoFloat, JNull, JNull)
    case ContactsClass => ContactsReceived([])
    case ReactionClass => ReactionReceived(JNull, NoString)
    case ButtonReplyClass => ButtonReply(NoString, NoString)
    case ListReplyClass => ListReply(NoString, NoString, JNull)
    case FlowResponseClass => FlowResponse(JObj([]), JNull)
    case OrderClass => OrderReceived(NoString, JArr([]), JNull)
    case UnknownClass => UnknownMessageReceived("", [])
  }

  /** `Cls()`: the event every class builds from no arguments. */
  function NoArgs(c: EventClass): (e: Event) {
    if IsMessageClass(c) then MessageEvent(DefaultMessageBase, DefaultKind(c))
    else StatusEvent(DefaultStatusBase,
      match c
      case SentClass => MessageSent
      case DeliveredClass => MessageDelivered
      case ReadClass => MessageRead
      case _ => MessageFailed([]))
  }

  /** Every class can be built with no arguments, and the result is of that class. */
  lemma NoArgsBuildsClass(c: EventClass)
    ensures ClassOf(NoArgs(c)) == c
    ensures NoArgs(c).MessageEvent? <==> IsMessageClass(c)
    ensures NoArgs(c).MessageEvent? ==> NoArgs(c).base == DefaultMessageBase
    ensures NoArgs(c).StatusEvent? ==> NoArgs(c).status == DefaultStatusBase
  {
    match c
    case TextClass =>
    case ImageClass =>
    case VideoClass =>
    case AudioClass =>
    case DocumentClass =>
    case StickerClass =>
    case LocationClass =>
    case ContactsClass =>
    case ReactionClass =>
    case ButtonReplyClass =>
    case ListReplyClass =>
    case FlowResponseClass =>
    case OrderClass =>
    case UnknownClass =>
    case SentClass =>
    case DeliveredClass =>
    case ReadClass =>
    case FailedClass =>
  }

  /** The class hierarchy: an event extends `MessageEvent` exactly when its class is a message class. */
  lemma Hierarchy(e: Event)
    ensures e.MessageEvent? <==> IsMessageClass(ClassOf(e))
  {
  }
}
