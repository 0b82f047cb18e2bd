/**
 * The pydantic response and webhook models (types.py): the `_to_camel`
 * alias generator, the `CamelModel` lookup rule (a field reads its camelCase
 * alias or its own snake_case name), and the validation of the webhook
 * models, the send-message response and the media metadata, with their
 * required fields, defaults and extra keys.
 */
module Types {
  import opened Wrappers
  import opened JsonValues
  import Case
  import opened PyText

  // ---------------------------------------------------------------------
  // _to_camel: s.split("_"), the first part kept, later parts capitalised
  // ---------------------------------------------------------------------

  function Underscores(s: string): nat {
    if |s| == 0 then 0 else (if s[0] == '_' then 1 else 0) + Underscores(s[1..])
  }

  /** `s.split("_")`: one more part than there are underscores, none holding one. */
  function SplitUnderscore(s: string): (parts: seq<string>)
    ensures |parts| == Underscores(s) + 1
    ensures forall i :: 0 <= i < |parts| ==> '_' !in parts[i]
  {
    if |s| == 0 then [""]
    else
      var rest := SplitUnderscore(s[1..]);
      if s[0] == '_' then [""] + rest else [[s[0]] + rest[0]] + rest[1..]
  }

  /** `"_".join(parts)`. */
  function JoinUnderscore(parts: seq<string>): string
    requires |parts| > 0
  {
    if |parts| == 1 then parts[0] else parts[0] + "_" + JoinUnderscore(parts[1..])
  }

  /** Joining the parts again gives back the original string. */
  lemma {:induction false} SplitJoin(s: string)
    ensures JoinUnderscore(SplitUnderscore(s)) == s
  {
    if |s| > 0 {
      var rest := SplitUnderscore(s[1..]);
      SplitJoin(s[1..]);
      if s[0] == '_' {
        assert ([""] + rest)[1..] == rest;
      } else {
        var parts := [[s[0]] + rest[0]] + rest[1..];
        assert parts[1..] == rest[1..];
        if |rest| > 1 {
          assert JoinUnderscore(rest) == rest[0] + "_" + JoinUnderscore(rest[1..]);
        }
        assert s == [s[0]] + s[1..];
      }
    }
  }

  /** `w.capitalize()`: the first character upper-cased, the rest lower-cased. */
  function Capitalize(w: string): (r: string)
    ensures |r| == |w|
    ensures |w| > 0 ==> r[0] == Case.Upper(w[0])
    ensures forall i :: 0 < i < |w| ==> r[i] == Case.Lower(w[i])
  {
    if |w| == 0 then "" else [Case.Upper(w[0])] + LowerAll(w[1..])
  }

  function ConcatCapitalized(parts: seq<string>): (r: string) {
    if |parts| == 0 then "" else Capitalize(parts[0]) + ConcatCapitalized(parts[1..])
  }

  /**
   * `_to_camel(s)`, the alias every `CamelModel` field is given: it never
   * contains an underscore, and it is the name with its underscores taken
   * out (the letters only recased).
   */
  function CamelAlias(s: string): (r: string)
    ensures '_' !in r
    ensures |r| == |s| - Underscores(s)
  {
    var parts := SplitUnderscore(s);
    ConcatNoUnderscore(parts[1..]);
    SplitLength(s);
    ConcatLength(parts[1..]);
    assert TotalLength(parts) == |parts[0]| + TotalLength(parts[1..]);
    parts[0] + ConcatCapitalized(parts[1..])
  }

  lemma CapitalizeNoUnderscore(w: string)
    requires '_' !in w
    ensures '_' !in Capitalize(w)
  {
    if |w| > 0 {
      var r := Capitalize(w);
      forall i | 0 <= i < |r|
        ensures r[i] != '_'
      {
        assert w[i] in w;
      }
    }
  }

  lemma {:induction false} ConcatNoUnderscore(parts: seq<string>)
    requires forall i :: 0 <= i < |parts| ==> '_' !in parts[i]
    ensures '_' !in ConcatCapitalized(parts)
  {
    if |parts| > 0 {
      CapitalizeNoUnderscore(parts[0]);
      ConcatNoUnderscore(parts[1..]);
    }
  }

  lemma {:induction false} ConcatLength(parts: seq<string>)
    ensures |ConcatCapitalized(parts)| == TotalLength(parts)
  {
    if |parts| > 0 {
      ConcatLength(parts[1..]);
    }
  }

  function TotalLength(parts: seq<string>): nat {
    if |parts| == 0 then 0 else |parts[0]| + TotalLength(parts[1..])
  }

  lemma {:induction false} SplitLength(s: string)
    ensures TotalLength(SplitUnderscore(s)) + Underscores(s) == |s|
  {
    if |s| > 0 {
      SplitLength(s[1..]);
      var rest := SplitUnderscore(s[1..]);
      if s[0] == '_' {
        assert ([""] + rest)[1..] == rest;
      } else {
        assert ([[s[0]] + rest[0]] + rest[1..])[1..] == rest[1..];
      }
    }
  }

  lemma {:induction false} SplitPlain(s: string)
    requires '_' !in s
    ensures SplitUnderscore(s) == [s]
  {
    if |s| > 0 {
      assert '_' !in s[1..] by {
        forall i | 0 <= i < |s| - 1 ensures s[1..][i] != '_' {
          assert s[1..][i] == s[i + 1];
        }
      }
      SplitPlain(s[1..]);
      assert s[0] in s;
      assert [s[0]] + s[1..] == s;
    }
  }

  /** A name without an underscore is its own alias. */
  lemma AliasOfPlainName(s: string)
    requires '_' !in s
    ensures CamelAlias(s) == s
  {
    SplitPlain(s);
  }

  lemma {:induction false} SplitAtFirst(a: string, r: string)
    requires '_' !in a
    ensures SplitUnderscore(a + "_" + r) == [a] + SplitUnderscore(r)
  {
    var s := a + "_" + r;
    if |a| == 0 {
      assert s == "_" + r && s[1..] == r;
    } else {
      assert '_' !in a[1..] by {
        forall i | 0 <= i < |a| - 1 ensures a[1..][i] != '_' {
          assert a[1..][i] == a[i + 1];
        }
      }
      SplitAtFirst(a[1..], r);
      assert s[0] == a[0] && s[1..] == a[1..] + "_" + r;
      assert a[0] in a;
      assert [a[0]] + a[1..] == a;
    }
  }

  /** Two underscore-free words joined by one underscore: `a_b` becomes `aB`. */
  lemma AliasOfTwoWords(a: string, b: string)
    requires '_' !in a && '_' !in b
    ensures CamelAlias(a + "_" + b) == a + Capitalize(b)
  {
    SplitAtFirst(a, b);
    SplitPlain(b);
    assert ConcatCapitalized([b]) == Capitalize(b);
  }

  /** Splitting underscore-free words joined by underscores gives the words back. */
  lemma {:induction false} SplitOfJoin(ws: seq<string>)
    requires |ws| > 0
    requires forall i :: 0 <= i < |ws| ==> '_' !in ws[i]
    ensures SplitUnderscore(JoinUnderscore(ws)) == ws
  {
    if |ws| == 1 {
      SplitPlain(ws[0]);
    } else {
      SplitOfJoin(ws[1..]);
      SplitAtFirst(ws[0], JoinUnderscore(ws[1..]));
    }
  }

  /** The alias of `w0_w1_..._wn` is `w0` followed by every later word capitalised. */
  lemma AliasOfWords(ws: seq<string>)
    requires |ws| > 0
    requires forall i :: 0 <= i < |ws| ==> '_' !in ws[i]
    ensures CamelAlias(JoinUnderscore(ws)) == ws[0] + ConcatCapitalized(ws[1..])
  {
    SplitOfJoin(ws);
  }

  /** `_to_camel("first_name") == "firstName"`. */
  lemma FirstNameAlias(s: string)
    requires s == "first_name"
    ensures CamelAlias(s) == "firstName"
  {
    assert s == "first" + "_" + "name";
    AliasOfTwoWords("first", "name");
    assert Capitalize("name") == "Name";
  }

  // ---------------------------------------------------------------------
  // CamelModel: a field reads its alias, or else its own name
  // ---------------------------------------------------------------------

  /** A model field: its snake_case name and the alias `_to_camel` gives it. */
  datatype FieldKey = FieldKey(name: string, alias: string)

  predicate WellAliased(k: FieldKey) {
    k.alias == CamelAlias(k.name)
  }

  /** A field whose name has no underscore: the alias is the name. */
  function Plain(name: string): FieldKey {
    FieldKey(name, name)
  }

  const WaIdKey := FieldKey("wa_id", "waId")
  const MessageStatusKey := FieldKey("message_status", "messageStatus")
  const MessagingProductKey := FieldKey("messaging_product", "messagingProduct")
  const MimeTypeKey := FieldKey("mime_type", "mimeType")
  const FileSizeKey := FieldKey("file_size", "fileSize")
  const FromKey := FieldKey("from_", "from")
  const ReferredProductKey := FieldKey("referred_product", "referredProduct")
  const RecipientIdKey := FieldKey("recipient_id", "recipientId")

  lemma PlainKeyAliased(name: string)
    requires '_' !in name
    ensures WellAliased(Plain(name))
  {
    AliasOfPlainName(name);
  }

  /** A two-word name `a_b` has the alias `aB`. */
  lemma TwoWordKey(k: FieldKey, a: string, b: string)
    requires '_' !in a && '_' !in b
    requires k.name == a + "_" + b && k.alias == a + Capitalize(b)
    ensures WellAliased(k)
  {
    AliasOfTwoWords(a, b);
  }

  lemma WaIdAliased(k: FieldKey)
    requires k == WaIdKey
    ensures WellAliased(k)
  {
    assert Capitalize("id") == "Id";
    TwoWordKey(k, "wa", "id");
  }

  lemma MessageStatusAliased(k: FieldKey)
    requires k == MessageStatusKey
    ensures WellAliased(k)
  {
    assert Capitalize("status") == "Status";
    TwoWordKey(k, "message", "status");
  }

  lemma CapitalizeProduct()
    ensures Capitalize("product") == "Product"
  {
  }

  lemma MessagingProductAliased(k: FieldKey)
    requires k == MessagingProductKey
    ensures WellAliased(k)
  {
    CapitalizeProduct();
    assert k.name == "messaging" + "_" + "product";
    assert k.alias == "messaging" + Capitalize("product");
    TwoWordKey(k, "messaging", "product");
  }

  lemma MimeTypeAliased(k: FieldKey)
    requires k == MimeTypeKey
    ensures WellAliased(k)
  {
    assert Capitalize("type") == "Type";
    TwoWordKey(k, "mime", "type");
  }

  lemma FileSizeAliased(k: FieldKey)
    requires k == FileSizeKey
    ensures WellAliased(k)
  {
    assert Capitalize("size") == "Size";
    TwoWordKey(k, "file", "size");
  }

  lemma FromAliased(k: FieldKey)
    requires k == FromKey
    ensures WellAliased(k)
  {
    assert Capitalize("") == "";
    TwoWordKey(k, "from", "");
  }

  lemma ReferredProductAliased(k: FieldKey)
    requires k == ReferredProductKey
    ensures WellAliased(k)
  {
    CapitalizeProduct();
    TwoWordKey(k, "referred", "product");
  }

  lemma RecipientIdAliased(k: FieldKey)
    requires k == RecipientIdKey
    ensures WellAliased(k)
  {
    assert Capitalize("id") == "Id";
    TwoWordKey(k, "recipient", "id");
  }

  /** The key a field is read from: its alias when the dict holds it, else its name. */
  function UsedKey(d: Fields, k: FieldKey): Option<string> {
    if k.alias in Keys(d) then Some(k.alias) else if k.name in Keys(d) then Some(k.name) else None
  }

  /**
   * The input a field receives (`populate_by_name=True`): the value under
   * the alias when present, otherwise the value under the field name.
   */
  function FieldValue(d: Fields, k: FieldKey): (r: Option<Json>)
    ensures k.alias in Keys(d) ==> r == Get(d, k.alias)
    ensures k.alias !in Keys(d) ==> r == Get(d, k.name)
    ensures r.Some? <==> UsedKey(d, k).Some?
  {
    GetSpec(d, k.alias);
    GetSpec(d, k.name);
    if k.alias in Keys(d) then Get(d, k.alias) else Get(d, k.name)
  }

  /** Where an error on field `k` is reported: the key it was read from, or the alias when missing. */
  function Loc(d: Fields, k: FieldKey): string {
    UsedKey(d, k).GetOr(k.alias)
  }

  /** An error inside a list item or a sub-model is reported under the outer location. */
  function Nest(outer: string, f: Fault): Fault {
    match f
    case ValidationError(inner) => ValidationError(if inner == "" then outer else outer + "." + inner)
    case _ => f
  }

  // ---------------------------------------------------------------------
  // Field validators (pydantic lax mode: no coercion into `str`)
  // ---------------------------------------------------------------------

  /** `name: str` with no default. */
  function RequiredStr(d: Fields, k: FieldKey): (r: Result<string>)
    ensures r.Ok? <==> FieldValue(d, k).Some? && FieldValue(d, k).value.JStr?
    ensures r.Ok? ==> FieldValue(d, k) == Some(JStr(r.value))
    ensures r.Err? ==> r.fault == ValidationError(Loc(d, k))
  {
    match FieldValue(d, k)
    case Some(JStr(s)) => Ok(s)
    case _ => Err(ValidationError(Loc(d, k)))
  }

  /** `name: str | None = None`. */
  function OptionalStr(d: Fields, k: FieldKey): (r: Result<Option<string>>)
    ensures FieldValue(d, k).None? || FieldValue(d, k) == Some(JNull) ==> r == Ok(None)
    ensures r == Ok(None) ==> FieldValue(d, k).None? || FieldValue(d, k) == Some(JNull)
    ensures r.Ok? && r.value.Some? ==> FieldValue(d, k) == Some(JStr(r.value.value))
    ensures r.Err? ==> r.fault == ValidationError(Loc(d, k))
  {
    match FieldValue(d, k)
    case None => Ok(None)
    case Some(JNull) => Ok(None)
    case Some(JStr(s)) => Ok(Some(s))
    case _ => Err(ValidationError(Loc(d, k)))
  }

  /** `name: dict[str, Any] | None = None`. */
  function OptionalDict(d: Fields, k: FieldKey): (r: Result<Option<Fields>>)
    ensures FieldValue(d, k).None? || FieldValue(d, k) == Some(JNull) ==> r == Ok(None)
    ensures r == Ok(None) ==> FieldValue(d, k).None? || FieldValue(d, k) == Some(JNull)
    ensures r.Ok? && r.value.Some? ==> FieldValue(d, k) == Some(JObj(r.value.value))
    ensures r.Err? ==> r.fault == ValidationError(Loc(d, k))
  {
    match FieldValue(d, k)
    case None => Ok(None)
    case Some(JNull) => Ok(None)
    case Some(JObj(f)) => Ok(Some(f))
    case _ => Err(ValidationError(Loc(d, k)))
  }

  /**
   * A list field's items validated one by one with `v`; the first item that
   * fails is reported by its index.
   */
  function ValidateItems<T>(items: seq<Json>, v: Json -> Result<T>): (r: Result<seq<T>>)
    ensures r.Ok? <==> forall i :: 0 <= i < |items| ==> v(items[i]).Ok?
    ensures r.Ok? ==> |r.value| == |items| && forall i :: 0 <= i < |items| ==> v(items[i]) == Ok(r.value[i])
    ensures r.Err? ==> exists i :: 0 <= i < |items| && v(items[i]).Err? && r.fault == Nest(NatText(i), v(items[i]).fault)
  {
    if |items| == 0 then Ok([])
    else
      var rest := ValidateItems(items[..|items| - 1], v);
      var last := v(items[|items| - 1]);
      if rest.Err? then rest
      else if last.Err? then Err(Nest(NatText(|items| - 1), last.fault))
      else Ok(rest.value + [last.value])
  }

  /** `dict[str, Any]` as a list item. */
  function DictValue(j: Json): (r: Result<Fields>)
    ensures r.Ok? <==> j.JObj?
    ensures r.Ok? ==> j == JObj(r.value)
  {
    if j.JObj? then Ok(j.fields) else Err(ValidationError(""))
  }

  /** `name: list[dict[str, Any]] | None = None`. */
  function OptionalDictList(d: Fields, k: FieldKey): (r: Result<Option<seq<Fields>>>)
    ensures FieldValue(d, k).None? || FieldValue(d, k) == Some(JNull) ==> r == Ok(None)
    ensures r.Ok? <==>
      (FieldValue(d, k).None? || FieldValue(d, k) == Some(JNull) ||
       (FieldValue(d, k).value.JArr? && forall i :: 0 <= i < |FieldValue(d, k).value.items| ==> FieldValue(d, k).value.items[i].JObj?))
    ensures r.Ok? && r.value.Some? ==>
      (FieldValue(d, k).Some? && FieldValue(d, k).value.JArr? &&
       |r.value.value| == |FieldValue(d, k).value.items| &&
       forall i :: 0 <= i < |r.value.value| ==> FieldValue(d, k).value.items[i] == JObj(r.value.value[i]))
    ensures FieldValue(d, k).Some? && !FieldValue(d, k).value.JNull? && !FieldValue(d, k).value.JArr? ==>
      r == Err(ValidationError(Loc(d, k)))
    ensures r.Err? ==> r.fault.ValidationError?
  {
    match FieldValue(d, k)
    case None => Ok(None)
    case Some(JNull) => Ok(None)
    case Some(JArr(items)) =>
      (match ValidateItems(items, DictValue)
       case Ok(fs) => Ok(Some(fs))
       case Err(f) => Err(Nest(Loc(d, k), f)))
    case _ => Err(ValidationError(Loc(d, k)))
  }

  /**
   * The keys the model's fields consumed; with `extra="allow"` every other
   * key is kept, in input order, as an extra attribute.
   */
  function UsedKeys(d: Fields, ks: seq<FieldKey>): (r: seq<string>)
    ensures forall u :: u in r <==> exists i :: 0 <= i < |ks| && UsedKey(d, ks[i]) == Some(u)
  {
    if |ks| == 0 then []
    else
      (match UsedKey(d, ks[0]) case Some(u) => [u] case None => []) + UsedKeys(d, ks[1..])
  }

  function Unused(d: Fields, used: seq<string>): (r: Fields)
    ensures forall p :: p in r <==> p in d && p.0 !in used
  {
    if |d| == 0 then []
    else (if d[0].0 in used then [] else [d[0]]) + Unused(d[1..], used)
  }

  function Extras(d: Fields, ks: seq<FieldKey>): Fields {
    Unused(d, UsedKeys(d, ks))
  }

  /** `messaging_product: Literal["whatsapp"] = "whatsapp"`. */
  function WhatsAppProduct(d: Fields): (r: Result<string>)
    ensures r.Ok? <==> FieldValue(d, MessagingProductKey).None? || FieldValue(d, MessagingProductKey) == Some(JStr("whatsapp"))
    ensures r.Ok? ==> r.value == "whatsapp"
    ensures r.Err? ==> r.fault == ValidationError(Loc(d, MessagingProductKey))
  {
    match FieldValue(d, MessagingProductKey)
    case None => Ok("whatsapp")
    case Some(JStr(s)) => if s == "whatsapp" then Ok(s) else Err(ValidationError(Loc(d, MessagingProductKey)))
    case _ => Err(ValidationError(Loc(d, MessagingProductKey)))
  }

  /** `name: list[Model] = []`: a missing field is the empty list. */
  function ModelList<T>(d: Fields, k: FieldKey, v: Json -> Result<T>): (r: Result<seq<T>>)
    ensures FieldValue(d, k).None? ==> r == Ok([])
    ensures r.Ok? <==>
      (FieldValue(d, k).None? || (FieldValue(d, k).value.JArr? && ValidateItems(FieldValue(d, k).value.items, v).Ok?))
    ensures r.Ok? && FieldValue(d, k).Some? ==> FieldValue(d, k).value.JArr? && ValidateItems(FieldValue(d, k).value.items, v) == r
    ensures FieldValue(d, k).Some? && !FieldValue(d, k).value.JArr? ==> r == Err(ValidationError(Loc(d, k)))
  {
    match FieldValue(d, k)
    case None => Ok([])
    case Some(JArr(items)) =>
      (match ValidateItems(items, v)
       case Ok(xs) => Ok(xs)
       case Err(f) => Err(Nest(Loc(d, k), f)))
    case _ => Err(ValidationError(Loc(d, k)))
  }

  // ---------------------------------------------------------------------
  // Send-message response and media
  // ---------------------------------------------------------------------

  datatype ContactInfo = ContactInfo(input: string, waId: string)

  datatype MessageInfo = MessageInfo(id: string, messageStatus: Option<string>)

  datatype SendMessageResponse = SendMessageResponse(
    messagingProduct: string,
    contacts: seq<ContactInfo>,
    messages: seq<MessageInfo>)

  datatype MediaUploadResponse = MediaUploadResponse(id: string)

  datatype MediaMetadata = MediaMetadata(
    messagingProduct: string,
    url: string,
    mimeType: string,
    sha256: string,
    fileSize: string,
    id: string)

  /** `Model.model_validate(j)` needs a dict; a CamelModel ignores extra keys. */
  function ValidateContactInfo(j: Json): (r: Result<ContactInfo>)
    ensures r.Ok? <==> j.JObj? && RequiredStr(j.fields, Plain("input")).Ok? && RequiredStr(j.fields, WaIdKey).Ok?
    ensures r.Ok? ==>
      FieldValue(j.fields, Plain("input")) == Some(JStr(r.value.input)) &&
      FieldValue(j.fields, WaIdKey) == Some(JStr(r.value.waId))
    ensures !j.JObj? ==> r == Err(ValidationError(""))
  {
    if !j.JObj? then Err(ValidationError(""))
    else
      var input :- RequiredStr(j.fields, Plain("input"));
      var waId :- RequiredStr(j.fields, WaIdKey);
      Ok(ContactInfo(input, waId))
  }

  function ValidateMessageInfo(j: Json): (r: Result<MessageInfo>)
    ensures r.Ok? <==> j.JObj? && RequiredStr(j.fields, Plain("id")).Ok? && OptionalStr(j.fields, MessageStatusKey).Ok?
    ensures r.Ok? ==>
      FieldValue(j.fields, Plain("id")) == Some(JStr(r.value.id)) &&
      OptionalStr(j.fields, MessageStatusKey) == Ok(r.value.messageStatus)
    ensures !j.JObj? ==> r == Err(ValidationError(""))
  {
    if !j.JObj? then Err(ValidationError(""))
    else
      var id :- RequiredStr(j.fields, Plain("id"));
      var status :- OptionalStr(j.fields, MessageStatusKey);
      Ok(MessageInfo(id, status))
  }

  function ValidateSendMessageResponse(j: Json): (r: Result<SendMessageResponse>)
    ensures r.Ok? ==> j.JObj? && r.value.messagingProduct == "whatsapp"
    ensures r.Ok? ==>
      ModelList(j.fields, Plain("contacts"), ValidateContactInfo) == Ok(r.value.contacts) &&
      ModelList(j.fields, Plain("messages"), ValidateMessageInfo) == Ok(r.value.messages)
    ensures j.JObj? && WhatsAppProduct(j.fields).Err? ==> r == Err(WhatsAppProduct(j.fields).fault)
    ensures !j.JObj? ==> r == Err(ValidationError(""))
  {
    if !j.JObj? then Err(ValidationError(""))
    else
      var product :- WhatsAppProduct(j.fields);
      var contacts :- ModelList(j.fields, Plain("contacts"), ValidateContactInfo);
      var messages :- ModelList(j.fields, Plain("messages"), ValidateMessageInfo);
      Ok(SendMessageResponse(product, contacts, messages))
  }

  function ValidateMediaUploadResponse(j: Json): (r: Result<MediaUploadResponse>)
    ensures r.Ok? <==> j.JObj? && RequiredStr(j.fields, Plain("id")).Ok?
    ensures r.Ok? ==> FieldValue(j.fields, Plain("id")) == Some(JStr(r.value.id))
    ensures r.Err? ==> r.fault.ValidationError?
  {
    if !j.JObj? then Err(ValidationError(""))
    else
      var id :- RequiredStr(j.fields, Plain("id"));
      Ok(MediaUploadResponse(id))
  }

  function ValidateMediaMetadata(j: Json): (r: Result<MediaMetadata>)
    ensures r.Ok? ==> j.JObj? && r.value.messagingProduct == "whatsapp"
    ensures r.Ok? ==>
      FieldValue(j.fields, Plain("url")) == Some(JStr(r.value.url)) &&
      FieldValue(j.fields, MimeTypeKey) == Some(JStr(r.value.mimeType)) &&
      FieldValue(j.fields, Plain("sha256")) == Some(JStr(r.value.sha256)) &&
      FieldValue(j.fields, FileSizeKey) == Some(JStr(r.value.fileSize)) &&
      FieldValue(j.fields, Plain("id")) == Some(JStr(r.value.id))
    ensures r.Err? ==> r.fault.ValidationError?
  {
    if !j.JObj? then Err(ValidationError(""))
    else
      var d := j.fields;
      var product :- WhatsAppProduct(d);
      var url :- RequiredStr(d, Plain("url"));
      var mimeType :- RequiredStr(d, MimeTypeKey);
      var sha256 :- RequiredStr(d, Plain("sha256"));
      var fileSize :- RequiredStr(d, FileSizeKey);
      var id :- RequiredStr(d, Plain("id"));
      Ok(MediaMetadata(product, url, mimeType, sha256, fileSize, id))
  }

  // ---------------------------------------------------------------------
  // Webhook models
  // ---------------------------------------------------------------------

  /** `WebhookMessageContext`: extra keys are ignored. */
  datatype MessageContext = MessageContext(id: Option<string>, sender: Option<string>, referredProduct: Option<Fields>)

  function ValidateContext(j: Json): (r: Result<MessageContext>)
    ensures r.Ok? <==>
      (j.JObj? && OptionalStr(j.fields, Plain("id")).Ok? &&
       OptionalStr(j.fields, FromKey).Ok? && OptionalDict(j.fields, ReferredProductKey).Ok?)
    ensures r.Ok? ==>
      OptionalStr(j.fields, Plain("id")) == Ok(r.value.id) &&
      OptionalStr(j.fields, FromKey) == Ok(r.value.sender) &&
      OptionalDict(j.fields, ReferredProductKey) == Ok(r.value.referredProduct)
    ensures r.Err? ==> r.fault.ValidationError?
  {
    if !j.JObj? then Err(ValidationError(""))
    else
      var id :- OptionalStr(j.fields, Plain("id"));
      var sender :- OptionalStr(j.fields, FromKey);
      var product :- OptionalDict(j.fields, ReferredProductKey);
      Ok(MessageContext(id, sender, product))
  }

  /** `context: WebhookMessageContext | None = None`. */
  function OptionalContext(d: Fields): Result<Option<MessageContext>> {
    match FieldValue(d, Plain("context"))
    case None => Ok(None)
    case Some(JNull) => Ok(None)
    case Some(c) =>
      (match ValidateContext(c)
       case Ok(m) => Ok(Some(m))
       case Err(f) => Err(Nest(Loc(d, Plain("context")), f)))
  }

  /**
   * The type-specific parts of a `WebhookMessage`, each `None` unless the
   * webhook supplied it.
   */
  datatype MessagePayloads = MessagePayloads(
    text: Option<Fields>,
    image: Option<Fields>,
    video: Option<Fields>,
    audio: Option<Fields>,
    document: Option<Fields>,
    location: Option<Fields>,
    interactive: Option<Fields>,
    template: Option<Fields>,
    order: Option<Fields>,
    sticker: Option<Fields>,
    contacts: Option<seq<Fields>>,
    reaction: Option<Fields>,
    button: Option<Fields>,
    referral: Option<Fields>)

  const NoPayloads := MessagePayloads(None, None, None, None, None, None, None, None, None, None, None, None, None, None)

  /** The payload fields, in declaration order. */
  const PayloadKeys: seq<FieldKey> := [
    Plain("text"), Plain("image"), Plain("video"), Plain("audio"), Plain("document"),
    Plain("location"), Plain("interactive"), Plain("template"), Plain("order"), Plain("sticker"),
    Plain("contacts"), Plain("reaction"), Plain("button"), Plain("referral")]

  function ValidatePayloads(d: Fields): (r: Result<MessagePayloads>)
    ensures r.Ok? ==>
      OptionalDict(d, Plain("text")) == Ok(r.value.text) && OptionalDict(d, Plain("image")) == Ok(r.value.image) &&
      OptionalDict(d, Plain("video")) == Ok(r.value.video) && OptionalDict(d, Plain("audio")) == Ok(r.value.audio) &&
      OptionalDict(d, Plain("document")) == Ok(r.value.document) &&
      OptionalDict(d, Plain("location")) == Ok(r.value.location) &&
      OptionalDict(d, Plain("interactive")) == Ok(r.value.interactive) &&
      OptionalDict(d, Plain("template")) == Ok(r.value.template) && OptionalDict(d, Plain("order")) == Ok(r.value.order) &&
      OptionalDict(d, Plain("sticker")) == Ok(r.value.sticker) &&
      OptionalDictList(d, Plain("contacts")) == Ok(r.value.contacts) &&
      OptionalDict(d, Plain("reaction")) == Ok(r.value.reaction) && OptionalDict(d, Plain("button")) == Ok(r.value.button) &&
      OptionalDict(d, Plain("referral")) == Ok(r.value.referral)
    ensures r.Err? ==> r.fault.ValidationError?
  {
    var text :- OptionalDict(d, Plain("text"));
    var image :- OptionalDict(d, Plain("image"));
    var video :- OptionalDict(d, Plain("video"));
    var audio :- OptionalDict(d, Plain("audio"));
    var document :- OptionalDict(d, Plain("document"));
    var location :- OptionalDict(d, Plain("location"));
    var interactive :- OptionalDict(d, Plain("interactive"));
    var template :- OptionalDict(d, Plain("template"));
    var order :- OptionalDict(d, Plain("order"));
    var sticker :- OptionalDict(d, Plain("sticker"));
    var contacts :- OptionalDictList(d, Plain("contacts"));
    var reaction :- OptionalDict(d, Plain("reaction"));
    var button :- OptionalDict(d, Plain("button"));
    var referral :- OptionalDict(d, Plain("referral"));
    Ok(MessagePayloads(text, image, video, audio, document, location, interactive, template, order, sticker,
      contacts, reaction, button, referral))
  }

  /**
   * `WebhookMessage` (`extra="allow"`): `sender` is the `from_` field; every
   * key no field consumed is kept in `extra`, in input order.
   */
  datatype WebhookMessage = WebhookMessage(
    id: string,
    msgType: string,
    timestamp: string,
    sender: Option<string>,
    to: Option<string>,
    context: Option<MessageContext>,
    payloads: MessagePayloads,
    extra: Fields)

  /** The fields of `WebhookMessage`, in declaration order. */
  const MessageKeys: seq<FieldKey> :=
    [Plain("id"), Plain("type"), Plain("timestamp"), FromKey, Plain("to"), Plain("context")] + PayloadKeys

  /** `WebhookMessage.model_validate(j)`: the first failing field, in declaration order, is reported. */
  function ValidateWebhookMessage(j: Json): (r: Result<WebhookMessage>)
    ensures r.Ok? ==>
      (j.JObj? &&
       OptionalStr(j.fields, FromKey) == Ok(r.value.sender) && OptionalStr(j.fields, Plain("to")) == Ok(r.value.to) &&
       OptionalContext(j.fields) == Ok(r.value.context) && ValidatePayloads(j.fields) == Ok(r.value.payloads))
    ensures r.Ok? ==> r.value.extra == Extras(j.fields, MessageKeys)
    ensures r.Err? ==> r.fault.ValidationError?
    ensures !j.JObj? ==> r == Err(ValidationError(""))
  {
    if !j.JObj? then Err(ValidationError(""))
    else
      var d := j.fields;
      var id :- RequiredStr(d, Plain("id"));
      var msgType :- RequiredStr(d, Plain("type"));
      var timestamp :- RequiredStr(d, Plain("timestamp"));
      var sender :- OptionalStr(d, FromKey);
      var to :- OptionalStr(d, Plain("to"));
      var context :- OptionalContext(d);
      var payloads :- ValidatePayloads(d);
      Ok(WebhookMessage(id, msgType, timestamp, sender, to, context, payloads, Extras(d, MessageKeys)))
  }

  /** `MessageStatusUpdate` (`extra="allow"`). */
  datatype MessageStatusUpdate = MessageStatusUpdate(
    id: string,
    status: string,
    timestamp: string,
    recipientId: Option<string>,
    conversation: Option<Fields>,
    pricing: Option<Fields>,
    errors: Option<seq<Fields>>,
    extra: Fields)

  const StatusKeys: seq<FieldKey> := [
    Plain("id"), Plain("status"), Plain("timestamp"), RecipientIdKey,
    Plain("conversation"), Plain("pricing"), Plain("errors")]

  function ValidateStatusUpdate(j: Json): (r: Result<MessageStatusUpdate>)
    ensures r.Ok? ==>
      (j.JObj? &&
       OptionalStr(j.fields, RecipientIdKey) == Ok(r.value.recipientId) &&
       OptionalDict(j.fields, Plain("conversation")) == Ok(r.value.conversation) &&
       OptionalDict(j.fields, Plain("pricing")) == Ok(r.value.pricing) &&
       OptionalDictList(j.fields, Plain("errors")) == Ok(r.value.errors))
    ensures r.Ok? ==> r.value.extra == Extras(j.fields, StatusKeys)
    ensures r.Err? ==> r.fault.ValidationError?
    ensures !j.JObj? ==> r == Err(ValidationError(""))
  {
    if !j.JObj? then Err(ValidationError(""))
    else
      var d := j.fields;
      var id :- RequiredStr(d, Plain("id"));
      var status :- RequiredStr(d, Plain("status"));
      var timestamp :- RequiredStr(d, Plain("timestamp"));
      var recipientId :- OptionalStr(d, RecipientIdKey);
      var conversation :- OptionalDict(d, Plain("conversation"));
      var pricing :- OptionalDict(d, Plain("pricing"));
      var errors :- OptionalDictList(d, Plain("errors"));
      Ok(MessageStatusUpdate(id, status, timestamp, recipientId, conversation, pricing, errors,
        Extras(d, StatusKeys)))
  }

  /** `NormalizedWebhook`: `raw` maps each non-"messages" change field to its values. */
  datatype NormalizedWebhook = NormalizedWebhook(
    obj: Option<string>,
    phoneNumberId: Option<string>,
    displayPhoneNumber: Option<string>,
    contacts: seq<Fields>,
    messages: seq<WebhookMessage>,
    statuses: seq<MessageStatusUpdate>,
    raw: seq<(string, seq<Fields>)>)

  /** `NormalizedWebhook()`: every field at its default. */
  const EmptyWebhook := NormalizedWebhook(None, None, None, [], [], [], [])

  /** `str | None` on a value passed by keyword. */
  function StrOrNone(j: Json, loc: string): (r: Result<Option<string>>)
    ensures r.Ok? <==> j.JNull? || j.JStr?
    ensures r.Ok? ==> r.value == (if j.JStr? then Some(j.s) else None)
    ensures r.Err? ==> r.fault == ValidationError(loc)
  {
    match j
    case JNull => Ok(None)
    case JStr(s) => Ok(Some(s))
    case _ => Err(ValidationError(loc))
  }

  /** `raw: dict[str, list[dict[str, Any]]]` on string-keyed lists. */
  function RawLists(raw: seq<(string, seq<Json>)>): (r: Result<seq<(string, seq<Fields>)>>)
    ensures r.Ok? <==> forall i :: 0 <= i < |raw| ==> ValidateItems(raw[i].1, DictValue).Ok?
    ensures r.Ok? ==> |r.value| == |raw| && forall i :: 0 <= i < |raw| ==>
      r.value[i].0 == raw[i].0 && ValidateItems(raw[i].1, DictValue) == Ok(r.value[i].1)
    ensures r.Err? ==> r.fault.ValidationError?
  {
    if |raw| == 0 then Ok([])
    else
      var rest :- RawLists(raw[..|raw| - 1]);
      var (key, items) := raw[|raw| - 1];
      match ValidateItems(items, DictValue)
      case Ok(fs) => Ok(rest + [(key, fs)])
      case Err(f) => Err(Nest("raw." + key, f))
  }

  /**
   * `NormalizedWebhook(object=..., ..., raw=...)` as `normalize_webhook`
   * calls it: the message and status models are already validated;
   * `rawKeysAreStrings` is false when some change field used as a `raw`
   * key was not a string, which the `dict[str, ...]` annotation rejects.
   */
  function NewNormalizedWebhook(
    obj: Json, phoneNumberId: Json, displayPhoneNumber: Json, contacts: seq<Json>,
    messages: seq<WebhookMessage>, statuses: seq<MessageStatusUpdate>,
    raw: seq<(string, seq<Json>)>, rawKeysAreStrings: bool): (r: Result<NormalizedWebhook>)
    ensures r.Ok? <==>
      (obj.JNull? || obj.JStr?) && (phoneNumberId.JNull? || phoneNumberId.JStr?) &&
      (displayPhoneNumber.JNull? || displayPhoneNumber.JStr?) &&
      ValidateItems(contacts, DictValue).Ok? && rawKeysAreStrings && RawLists(raw).Ok?
    ensures r.Ok? ==>
      r.value.obj == AsStr(obj) && r.value.phoneNumberId == AsStr(phoneNumberId) &&
      r.value.displayPhoneNumber == AsStr(displayPhoneNumber) &&
      r.value.contacts == ValidateItems(contacts, DictValue).value &&
      r.value.messages == messages && r.value.statuses == statuses &&
      r.value.raw == RawLists(raw).value
    ensures r.Err? ==> r.fault.ValidationError?
  {
    var o :- StrOrNone(obj, "object");
    var p :- StrOrNone(phoneNumberId, "phone_number_id");
    var n :- StrOrNone(displayPhoneNumber, "display_phone_number");
    var cs :- (match ValidateItems(contacts, DictValue)
               case Ok(fs) => Ok(fs)
               case Err(f) => Err(Nest("contacts", f)));
    if !rawKeysAreStrings then Err(ValidationError("raw"))
    else
      var r :- RawLists(raw);
      Ok(NormalizedWebhook(o, p, n, cs, messages, statuses, r))
  }

  // ---------------------------------------------------------------------
  // Properties of the models
  // ---------------------------------------------------------------------

  /** A CamelModel field is read from its camelCase alias or from its snake_case name. */
  lemma ContactInfoEitherSpelling(input: string, waId: string)
    ensures ValidateContactInfo(JObj([("input", JStr(input)), ("waId", JStr(waId))])) == Ok(ContactInfo(input, waId))
    ensures ValidateContactInfo(JObj([("input", JStr(input)), ("wa_id", JStr(waId))])) == Ok(ContactInfo(input, waId))
  {
    var d1 := [("input", JStr(input)), ("waId", JStr(waId))];
    assert Keys(d1) == ["input", "waId"];
    assert FieldValue(d1, Plain("input")) == Some(JStr(input));
    GetCons("input", JStr(input), [("waId", JStr(waId))], "waId");
    assert FieldValue(d1, WaIdKey) == Some(JStr(waId));
    var d2 := [("input", JStr(input)), ("wa_id", JStr(waId))];
    assert Keys(d2) == ["input", "wa_id"];
    assert FieldValue(d2, Plain("input")) == Some(JStr(input));
    GetCons("input", JStr(input), [("wa_id", JStr(waId))], "waId");
    GetCons("input", JStr(input), [("wa_id", JStr(waId))], "wa_id");
    assert FieldValue(d2, WaIdKey) == Some(JStr(waId));
  }

  /** When both spellings are present the alias wins. */
  lemma AliasBeforeName(d: Fields, k: FieldKey, v: Json)
    requires (k.alias, v) in d && UniqueKeys(d)
    ensures FieldValue(d, k) == Some(v)
  {
    var i :| 0 <= i < |d| && d[i] == (k.alias, v);
    assert Keys(d)[i] == k.alias;
    GetUnique(d, i);
  }

  /** `MediaMetadata` accepts a dict exactly when its five string fields are there. */
  lemma MediaMetadataRequired(d: Fields)
    ensures ValidateMediaMetadata(JObj(d)).Ok? <==>
      WhatsAppProduct(d).Ok? && RequiredStr(d, Plain("url")).Ok? && RequiredStr(d, MimeTypeKey).Ok? &&
      RequiredStr(d, Plain("sha256")).Ok? && RequiredStr(d, FileSizeKey).Ok? && RequiredStr(d, Plain("id")).Ok?
    ensures FieldValue(d, Plain("url")).None? && WhatsAppProduct(d).Ok? ==>
      ValidateMediaMetadata(JObj(d)) == Err(ValidationError("url"))
  {
  }

  /** `SendMessageResponse()` from an empty dict: the literal product and empty lists. */
  lemma SendMessageResponseDefaults()
    ensures ValidateSendMessageResponse(JObj([])) == Ok(SendMessageResponse("whatsapp", [], []))
  {
  }

  /** `messaging_product` admits only "whatsapp". */
  lemma SendMessageResponseLiteral(d: Fields, product: string)
    requires Get(d, "messagingProduct") == Some(JStr(product)) && product != "whatsapp"
    ensures ValidateSendMessageResponse(JObj(d)) == Err(ValidationError("messagingProduct"))
  {
    GetSpec(d, "messagingProduct");
  }

  /** A message needs `id`, `type` and `timestamp`, each a string. */
  lemma MessageRequiresFields(d: Fields)
    ensures ValidateWebhookMessage(JObj(d)).Ok? ==>
      var m := ValidateWebhookMessage(JObj(d)).value;
      FieldValue(d, Plain("id")) == Some(JStr(m.id)) &&
      FieldValue(d, Plain("type")) == Some(JStr(m.msgType)) &&
      FieldValue(d, Plain("timestamp")) == Some(JStr(m.timestamp))
    ensures FieldValue(d, Plain("id")).None? ==> ValidateWebhookMessage(JObj(d)) == Err(ValidationError("id"))
    ensures FieldValue(d, Plain("type")).None? || FieldValue(d, Plain("timestamp")).None? ==>
      ValidateWebhookMessage(JObj(d)).Err?
  {
    var r := ValidateWebhookMessage(JObj(d));
    var id := RequiredStr(d, Plain("id"));
    var msgType := RequiredStr(d, Plain("type"));
    var timestamp := RequiredStr(d, Plain("timestamp"));
    if id.Err? {
      assert r == Err(id.fault);
    } else if msgType.Err? || timestamp.Err? {
      assert r.Err?;
    } else if r.Ok? {
      assert r.value.id == id.value && r.value.msgType == msgType.value && r.value.timestamp == timestamp.value;
    }
  }

  /** The dict supplies none of the payload fields, under either spelling. */
  predicate NoPayloadField(d: Fields) {
    FieldValue(d, Plain("text")).None? &&
    FieldValue(d, Plain("image")).None? &&
    FieldValue(d, Plain("video")).None? &&
    FieldValue(d, Plain("audio")).None? &&
    FieldValue(d, Plain("document")).None? &&
    FieldValue(d, Plain("location")).None? &&
    FieldValue(d, Plain("interactive")).None? &&
    FieldValue(d, Plain("template")).None? &&
    FieldValue(d, Plain("order")).None? &&
    FieldValue(d, Plain("sticker")).None? &&
    FieldValue(d, Plain("contacts")).None? &&
    FieldValue(d, Plain("reaction")).None? &&
    FieldValue(d, Plain("button")).None? &&
    FieldValue(d, Plain("referral")).None?
  }

  /** Payload fields the dict does not supply are all `None`. */
  lemma NoPayloadsSupplied(d: Fields)
    requires NoPayloadField(d)
    ensures ValidatePayloads(d) == Ok(NoPayloads)
  {
  }

  /** Every optional field the dict does not supply is `None`; extras are kept. */
  lemma MinimalMessage(d: Fields, id: string, msgType: string, timestamp: string)
    requires FieldValue(d, Plain("id")) == Some(JStr(id))
    requires FieldValue(d, Plain("type")) == Some(JStr(msgType))
    requires FieldValue(d, Plain("timestamp")) == Some(JStr(timestamp))
    requires FieldValue(d, FromKey).None? && FieldValue(d, Plain("to")).None? && FieldValue(d, Plain("context")).None?
    requires NoPayloadField(d)
    ensures ValidateWebhookMessage(JObj(d))
      == Ok(WebhookMessage(id, msgType, timestamp, None, None, None, NoPayloads, Extras(d, MessageKeys)))
  {
    NoPayloadsSupplied(d);
    assert RequiredStr(d, Plain("id")) == Ok(id);
    assert RequiredStr(d, Plain("type")) == Ok(msgType);
    assert RequiredStr(d, Plain("timestamp")) == Ok(timestamp);
    assert OptionalStr(d, FromKey) == Ok(None);
    assert OptionalStr(d, Plain("to")) == Ok(None);
    assert OptionalContext(d) == Ok(None);
  }

  /** A status update needs `id`, `status` and `timestamp`, each a string. */
  lemma StatusRequiresFields(d: Fields)
    ensures ValidateStatusUpdate(JObj(d)).Ok? ==>
      var s := ValidateStatusUpdate(JObj(d)).value;
      FieldValue(d, Plain("id")) == Some(JStr(s.id)) &&
      FieldValue(d, Plain("status")) == Some(JStr(s.status)) &&
      FieldValue(d, Plain("timestamp")) == Some(JStr(s.timestamp))
    ensures FieldValue(d, Plain("id")).None? ==> ValidateStatusUpdate(JObj(d)) == Err(ValidationError("id"))
    ensures FieldValue(d, Plain("status")).None? || FieldValue(d, Plain("timestamp")).None? ==>
      ValidateStatusUpdate(JObj(d)).Err?
  {
  }

  /** `recipient_id`, `conversation`, `pricing` and `errors` default to `None`; extras are kept. */
  lemma MinimalStatus(d: Fields, id: string, status: string, timestamp: string)
    requires FieldValue(d, Plain("id")) == Some(JStr(id))
    requires FieldValue(d, Plain("status")) == Some(JStr(status))
    requires FieldValue(d, Plain("timestamp")) == Some(JStr(timestamp))
    requires FieldValue(d, RecipientIdKey).None? && FieldValue(d, Plain("conversation")).None?
    requires FieldValue(d, Plain("pricing")).None? && FieldValue(d, Plain("errors")).None?
    ensures ValidateStatusUpdate(JObj(d))
      == Ok(MessageStatusUpdate(id, status, timestamp, None, None, None, None, Extras(d, StatusKeys)))
  {
    assert RequiredStr(d, Plain("id")) == Ok(id);
    assert RequiredStr(d, Plain("status")) == Ok(status);
    assert RequiredStr(d, Plain("timestamp")) == Ok(timestamp);
  }

  /** A key that names no field (under either spelling) survives as an extra. */
  lemma UnknownKeyKept(d: Fields, ks: seq<FieldKey>, p: (string, Json))
    requires p in d
    requires forall i :: 0 <= i < |ks| ==> p.0 != ks[i].name && p.0 != ks[i].alias
    ensures p in Extras(d, ks)
  {
  }

  /** `NormalizedWebhook()` is the value built from no data at all. */
  lemma EmptyWebhookFromNothing()
    ensures NewNormalizedWebhook(JNull, JNull, JNull, [], [], [], [], true) == Ok(EmptyWebhook)
  {
  }

  // ---------------------------------------------------------------------
  // model_dump(exclude_none=True): fields by name, `None` left out
  // ---------------------------------------------------------------------

  /** The JSON value of an optional string field, `None` when it is not set. */
  function StrJson(v: Option<string>): Option<Json> {
    if v.Some? then Some(JStr(v.value)) else None
  }

  /** The JSON value of an optional dict field, `None` when it is not set. */
  function DictJson(v: Option<Fields>): Option<Json> {
    if v.Some? then Some(JObj(v.value)) else None
  }

  function DictListValue(fs: seq<Fields>): (r: Json)
    ensures r.JArr? && |r.items| == |fs|
    ensures forall i :: 0 <= i < |fs| ==> r.items[i] == JObj(fs[i])
  {
    JArr(seq(|fs|, i requires 0 <= i < |fs| => JObj(fs[i])))
  }

  /** `d[k] = v` for every extra in turn, as a dict built from the fields and then the extras. */
  function PutAll(d: Fields, extra: Fields): (r: Fields)
    ensures |d| <= |r| && Keys(r)[..|d|] == Keys(d)
    ensures forall p | p in extra :: p.0 in Keys(r)
    decreases |extra|
  {
    if |extra| == 0 then d
    else
      var next := Put(d, extra[0].0, extra[0].1);
      PutKeys(d, extra[0].0, extra[0].1);
      var r := PutAll(next, extra[1..]);
      PrefixMember(Keys(r), Keys(next), extra[0].0);
      assert forall p | p in extra :: p == extra[0] || p in extra[1..];
      r
  }

  /** The value of the last entry under `k`: what a run of `d[k] = v` over the entries leaves there. */
  function GetLast(f: Fields, k: string): Option<Json> {
    if |f| == 0 then None
    else if f[|f| - 1].0 == k then Some(f[|f| - 1].1)
    else GetLast(f[..|f| - 1], k)
  }

  /** The last entry under `k` is in the rest of the dict, or else it is the first entry. */
  lemma {:induction false} GetLastFront(f: Fields, k: string)
    requires |f| > 0
    ensures GetLast(f, k) == if GetLast(f[1..], k).Some? then GetLast(f[1..], k) else if f[0].0 == k then Some(f[0].1) else None
    decreases |f|
  {
    var n := |f|;
    if n > 1 {
      var init := f[..n - 1];
      assert f[n - 1] == f[1..][n - 2];
      assert init[1..] == f[1..][..n - 2];
      if f[n - 1].0 != k {
        GetLastFront(init, k);
        assert init[0] == f[0];
      }
    }
  }

  /** After the extras are stored, a key reads the last extra under it, or else its old value. */
  lemma {:induction false} GetAfterExtras(d: Fields, extra: Fields, k: string)
    ensures Get(PutAll(d, extra), k) == if GetLast(extra, k).Some? then GetLast(extra, k) else Get(d, k)
    decreases |extra|
  {
    if |extra| > 0 {
      var next := Put(d, extra[0].0, extra[0].1);
      assert PutAll(d, extra) == PutAll(next, extra[1..]);
      GetAfterExtras(next, extra[1..], k);
      GetPut(d, extra[0].0, extra[0].1, k);
      GetLastFront(extra, k);
    }
  }

  function NonNull(extra: Fields): (r: Fields)
    ensures forall p :: p in r <==> p in extra && p.1 != JNull
  {
    if |extra| == 0 then []
    else (if extra[0].1 == JNull then [] else [extra[0]]) + NonNull(extra[1..])
  }

  lemma PrefixMember(a: seq<string>, b: seq<string>, x: string)
    requires |b| <= |a| && a[..|b|] == b && x in b
    ensures x in a
  {
    var i :| 0 <= i < |b| && b[i] == x;
    assert a[i] == x;
  }

  /** The fields of a reply context under their dump names, `None` where not set. */
  function ContextEntries(c: MessageContext): seq<(string, Option<Json>)> {
    [("id", StrJson(c.id)), ("from_", StrJson(c.sender)), ("referred_product", DictJson(c.referredProduct))]
  }

  /** The dump of a reply context: its fields that are not `None`. */
  function ContextDump(c: MessageContext): (r: Fields)
    ensures r == [] <==> c.id.None? && c.sender.None? && c.referredProduct.None?
    ensures forall p :: p in r ==> p.1 != JNull
  {
    var es := ContextEntries(c);
    PresentEmpty(es);
    ContextEntriesNone(c);
    PresentEntries(es);
    Present(es)
  }

  lemma ContextEntriesNone(c: MessageContext)
    ensures (forall i :: 0 <= i < |ContextEntries(c)| ==> ContextEntries(c)[i].1.None?) <==>
      c.id.None? && c.sender.None? && c.referredProduct.None?
  {
    var es := ContextEntries(c);
    if c.id.None? && c.sender.None? && c.referredProduct.None? {
      forall i | 0 <= i < |es| ensures es[i].1.None? {
        if i == 0 {} else if i == 1 {} else {}
      }
    } else {
      assert es[0].1 == StrJson(c.id) && es[1].1 == StrJson(c.sender) && es[2].1 == DictJson(c.referredProduct);
    }
  }

  /** Each of the three context fields reads back from the dump under its own name when set, and nothing else is there. */
  lemma ContextDumpValues(c: MessageContext)
    ensures var r := ContextDump(c);
      Get(r, "id") == StrJson(c.id) && Get(r, "from_") == StrJson(c.sender) &&
      Get(r, "referred_product") == DictJson(c.referredProduct) &&
      forall p | p in r :: p.0 in ["id", "from_", "referred_product"]
  {
    var es := ContextEntries(c);
    PresentEntries(es);
    PresentGet(es, 0);
    PresentGet(es, 1);
    PresentGet(es, 2);
  }

  /** The names of the payload fields. */
  const PayloadNames: seq<string> := [
    "text", "image", "video", "audio", "document", "location", "interactive", "template", "order", "sticker",
    "contacts", "reaction", "button", "referral"]

  /** The payload fields under their names, `None` where not set. */
  function PayloadEntries(p: MessagePayloads): (es: seq<(string, Option<Json>)>)
    ensures |es| == |PayloadNames|
  {
    [("text", DictJson(p.text)), ("image", DictJson(p.image)), ("video", DictJson(p.video)),
     ("audio", DictJson(p.audio)), ("document", DictJson(p.document)), ("location", DictJson(p.location)),
     ("interactive", DictJson(p.interactive)), ("template", DictJson(p.template)), ("order", DictJson(p.order)),
     ("sticker", DictJson(p.sticker)),
     ("contacts", if p.contacts.Some? then Some(DictListValue(p.contacts.value)) else None),
     ("reaction", DictJson(p.reaction)), ("button", DictJson(p.button)), ("referral", DictJson(p.referral))]
  }

  /** Each payload candidate carries its field's name and never a null value. */
  lemma PayloadEntryAt(p: MessagePayloads, i: nat)
    requires i < |PayloadNames|
    ensures PayloadEntries(p)[i].0 == PayloadNames[i]
    ensures PayloadEntries(p)[i].1 != Some(JNull)
  {
    if i == 0 {} else if i == 1 {} else if i == 2 {} else if i == 3 {} else if i == 4 {}
    else if i == 5 {} else if i == 6 {} else if i == 7 {} else if i == 8 {} else if i == 9 {}
    else if i == 10 {} else if i == 11 {} else if i == 12 {} else {}
  }

  /**
   * The dump of the payload fields: each payload that is set under its own
   * name, nothing for those that are `None`, and no other key.
   */
  function PayloadsDump(p: MessagePayloads): (r: Fields)
    ensures forall e :: e in r ==> e.1 != JNull
    ensures forall e | e in r :: e.0 in PayloadNames
    ensures Get(r, "text") == DictJson(p.text) && Get(r, "image") == DictJson(p.image)
    ensures Get(r, "video") == DictJson(p.video) && Get(r, "audio") == DictJson(p.audio)
    ensures Get(r, "document") == DictJson(p.document) && Get(r, "location") == DictJson(p.location)
    ensures Get(r, "interactive") == DictJson(p.interactive) && Get(r, "template") == DictJson(p.template)
    ensures Get(r, "order") == DictJson(p.order) && Get(r, "sticker") == DictJson(p.sticker)
    ensures Get(r, "contacts") == if p.contacts.Some? then Some(DictListValue(p.contacts.value)) else None
    ensures Get(r, "reaction") == DictJson(p.reaction) && Get(r, "button") == DictJson(p.button)
    ensures Get(r, "referral") == DictJson(p.referral)
  {
    PayloadsDumpFacts(p);
    Present(PayloadEntries(p))
  }

  /** The facts `PayloadsDump` promises, about the run of its candidate entries. */
  lemma PayloadsDumpFacts(p: MessagePayloads)
    ensures var r := Present(PayloadEntries(p));
      (forall e | e in r :: e.1 != JNull && e.0 in PayloadNames) &&
      Get(r, "text") == DictJson(p.text) && Get(r, "image") == DictJson(p.image) &&
      Get(r, "video") == DictJson(p.video) && Get(r, "audio") == DictJson(p.audio) &&
      Get(r, "document") == DictJson(p.document) && Get(r, "location") == DictJson(p.location) &&
      Get(r, "interactive") == DictJson(p.interactive) && Get(r, "template") == DictJson(p.template) &&
      Get(r, "order") == DictJson(p.order) && Get(r, "sticker") == DictJson(p.sticker) &&
      Get(r, "contacts") == (if p.contacts.Some? then Some(DictListValue(p.contacts.value)) else None) &&
      Get(r, "reaction") == DictJson(p.reaction) && Get(r, "button") == DictJson(p.button) &&
      Get(r, "referral") == DictJson(p.referral)
  {
    var es := PayloadEntries(p);
    PayloadsDumpGets(p);
    PresentEntries(es);
    forall e | e in Present(es) ensures e.1 != JNull && e.0 in PayloadNames {
      var i :| 0 <= i < |es| && es[i].0 == e.0 && es[i].1 == Some(e.1);
      PayloadEntryAt(p, i);
    }
    assert Get(Present(es), es[0].0) == es[0].1;
    assert Get(Present(es), es[1].0) == es[1].1;
    assert Get(Present(es), es[2].0) == es[2].1;
    assert Get(Present(es), es[3].0) == es[3].1;
    assert Get(Present(es), es[4].0) == es[4].1;
    assert Get(Present(es), es[5].0) == es[5].1;
    assert Get(Present(es), es[6].0) == es[6].1;
    assert Get(Present(es), es[7].0) == es[7].1;
    assert Get(Present(es), es[8].0) == es[8].1;
    assert Get(Present(es), es[9].0) == es[9].1;
    assert Get(Present(es), es[10].0) == es[10].1;
    assert Get(Present(es), es[11].0) == es[11].1;
    assert Get(Present(es), es[12].0) == es[12].1;
    assert Get(Present(es), es[13].0) == es[13].1;
  }

  /** Each payload reads back from the dump under its own name. */
  lemma PayloadsDumpGets(p: MessagePayloads)
    ensures forall i :: 0 <= i < |PayloadNames| ==> Get(Present(PayloadEntries(p)), PayloadEntries(p)[i].0) == PayloadEntries(p)[i].1
  {
    var es := PayloadEntries(p);
    assert DistinctNames(es) by {
      forall i, j | 0 <= i < j < |es| ensures es[i].0 != es[j].0 {
        PayloadEntryAt(p, i);
        PayloadEntryAt(p, j);
        PayloadNamesDistinct(i, j);
      }
    }
    forall i | 0 <= i < |es| ensures Get(Present(es), es[i].0) == es[i].1 {
      PresentGet(es, i);
    }
  }

  /** The field each payload name ranks as. */
  function PayloadRank(n: string): nat {
    if n == "text" then 0 else if n == "image" then 1 else if n == "video" then 2 else if n == "audio" then 3
    else if n == "document" then 4 else if n == "location" then 5 else if n == "interactive" then 6
    else if n == "template" then 7 else if n == "order" then 8 else if n == "sticker" then 9
    else if n == "contacts" then 10 else if n == "reaction" then 11 else if n == "button" then 12
    else 13
  }

  /** No payload name is used twice. */
  lemma PayloadNamesDistinct(i: nat, j: nat)
    requires i < j < |PayloadNames|
    ensures PayloadNames[i] != PayloadNames[j]
  {
    PayloadRankAt(i);
    PayloadRankAt(j);
  }

  lemma PayloadRankAt(i: nat)
    requires i < |PayloadNames|
    ensures PayloadRank(PayloadNames[i]) == i
  {
    if i == 0 {} else if i == 1 {} else if i == 2 {} else if i == 3 {} else if i == 4 {}
    else if i == 5 {} else if i == 6 {} else if i == 7 {} else if i == 8 {} else if i == 9 {}
    else if i == 10 {} else if i == 11 {} else if i == 12 {} else {}
  }

  /** The value the last non-`None` extra under `k` holds, if there is one. */
  function ExtraValue(m: WebhookMessage, k: string): Option<Json> {
    GetLast(NonNull(m.extra), k)
  }

  /** The names `MessageDump` gives the fields of a message. */
  const MessageNames: seq<string> := ["id", "type", "timestamp", "from_", "to", "context"] + PayloadNames

  /** The fields of a message under their dump names, in declaration order, `None` where not set. */
  function MessageEntries(m: WebhookMessage): (es: seq<(string, Option<Json>)>)
    ensures |es| == |MessageNames|
  {
    [("id", Some(JStr(m.id))), ("type", Some(JStr(m.msgType))), ("timestamp", Some(JStr(m.timestamp))),
     ("from_", StrJson(m.sender)), ("to", StrJson(m.to)),
     ("context", if m.context.Some? then Some(JObj(ContextDump(m.context.value))) else None)] +
    PayloadEntries(m.payloads)
  }

  /** Each message candidate carries its field's name. */
  lemma MessageEntryAt(m: WebhookMessage, i: nat)
    requires i < |MessageNames|
    ensures MessageEntries(m)[i].0 == MessageNames[i]
  {
    if i >= 6 {
      PayloadEntryAt(m.payloads, i - 6);
    } else if i == 0 {} else if i == 1 {} else if i == 2 {} else if i == 3 {} else if i == 4 {} else {}
  }

  /**
   * The dump of a message: its fields that are not `None`, then its
   * non-`None` extras.
   */
  function MessageDump(m: WebhookMessage): (r: Fields)
    ensures |r| >= 3 && r[0].0 == "id" && r[1].0 == "type" && r[2].0 == "timestamp"
    ensures forall p | p in m.extra && p.1 != JNull :: p.0 in Keys(r)
  {
    MessageDumpKeys(m);
    PutAll(Present(MessageEntries(m)), NonNull(m.extra))
  }

  /** The required fields stay first once the extras are stored, and every non-`None` extra is there. */
  lemma MessageDumpKeys(m: WebhookMessage)
    ensures var r := PutAll(Present(MessageEntries(m)), NonNull(m.extra));
      |r| >= 3 && r[0].0 == "id" && r[1].0 == "type" && r[2].0 == "timestamp" &&
      forall p | p in m.extra && p.1 != JNull :: p.0 in Keys(r)
  {
    var base := Present(MessageEntries(m));
    MessageDumpHead(m);
    var r := PutAll(base, NonNull(m.extra));
    assert Keys(r)[..|base|] == Keys(base);
    assert r[0].0 == Keys(r)[0] && r[1].0 == Keys(r)[1] && r[2].0 == Keys(r)[2];
  }

  /** Each field before the payloads reads back from the message dump unless an extra takes its name. */
  lemma MessageDumpFieldValues(m: WebhookMessage)
    ensures var r := MessageDump(m);
      (ExtraValue(m, "id").None? ==> Get(r, "id") == Some(JStr(m.id))) &&
      (ExtraValue(m, "type").None? ==> Get(r, "type") == Some(JStr(m.msgType))) &&
      (ExtraValue(m, "timestamp").None? ==> Get(r, "timestamp") == Some(JStr(m.timestamp))) &&
      (ExtraValue(m, "from_").None? ==> Get(r, "from_") == StrJson(m.sender)) &&
      (ExtraValue(m, "to").None? ==> Get(r, "to") == StrJson(m.to)) &&
      (ExtraValue(m, "context").None? ==>
        Get(r, "context") == if m.context.Some? then Some(JObj(ContextDump(m.context.value))) else None)
  {
    var base := Present(MessageEntries(m));
    MessageFieldGets(m);
    GetAfterExtras(base, NonNull(m.extra), "id");
    GetAfterExtras(base, NonNull(m.extra), "type");
    GetAfterExtras(base, NonNull(m.extra), "timestamp");
    GetAfterExtras(base, NonNull(m.extra), "from_");
    GetAfterExtras(base, NonNull(m.extra), "to");
    GetAfterExtras(base, NonNull(m.extra), "context");
  }

  /**
   * In the message dump an extra wins under its key, a payload reads back
   * as from the payload dump, and a key that names neither a field nor a
   * non-`None` extra is absent.
   */
  lemma MessageDumpOtherValues(m: WebhookMessage)
    ensures var r := MessageDump(m);
      (forall k | ExtraValue(m, k).Some? :: Get(r, k) == ExtraValue(m, k)) &&
      (forall k | k in PayloadNames && ExtraValue(m, k).None? :: Get(r, k) == Get(PayloadsDump(m.payloads), k)) &&
      (forall k | k !in MessageNames && ExtraValue(m, k).None? :: Get(r, k).None?)
  {
    var base := Present(MessageEntries(m));
    var r := PutAll(base, NonNull(m.extra));
    forall k | ExtraValue(m, k).Some? ensures Get(r, k) == ExtraValue(m, k) {
      GetAfterExtras(base, NonNull(m.extra), k);
    }
    MessagePayloadGets(m);
    forall k | k in PayloadNames && ExtraValue(m, k).None? ensures Get(r, k) == Get(PayloadsDump(m.payloads), k) {
      GetAfterExtras(base, NonNull(m.extra), k);
    }
    MessageOtherKeysAbsent(m);
    forall k | k !in MessageNames && ExtraValue(m, k).None? ensures Get(r, k).None? {
      GetAfterExtras(base, NonNull(m.extra), k);
    }
  }

  /** The required fields open the dump, in declaration order. */
  lemma MessageDumpHead(m: WebhookMessage)
    ensures |Present(MessageEntries(m))| >= 3
    ensures Present(MessageEntries(m))[0].0 == "id"
    ensures Present(MessageEntries(m))[1].0 == "type"
    ensures Present(MessageEntries(m))[2].0 == "timestamp"
  {
    var es := MessageEntries(m);
    forall i | 0 <= i < 3 ensures es[i].1.Some? {
      if i == 0 {} else if i == 1 {} else {}
    }
    PresentLeading(es, 3);
  }

  /** No two candidate entries of a message share a name. */
  lemma MessageEntriesDistinct(m: WebhookMessage)
    ensures DistinctNames(MessageEntries(m))
  {
    var es := MessageEntries(m);
    forall i, j | 0 <= i < j < |es| ensures es[i].0 != es[j].0 {
      MessageEntryAt(m, i);
      MessageEntryAt(m, j);
      MessageNamesDistinct(i, j);
    }
  }

  /** No field name of a message is used twice. */
  lemma MessageNamesDistinct(i: nat, j: nat)
    requires i < j < |MessageNames|
    ensures MessageNames[i] != MessageNames[j]
  {
    var head := ["id", "type", "timestamp", "from_", "to", "context"];
    assert MessageNames == head + PayloadNames;
    if i >= 6 {
      assert MessageNames[i] == PayloadNames[i - 6] && MessageNames[j] == PayloadNames[j - 6];
      PayloadNamesDistinct(i - 6, j - 6);
    } else if j >= 6 {
      assert MessageNames[j] in PayloadNames;
      assert MessageNames[i] in head;
    } else {
      assert MessageNames[i] == head[i] && MessageNames[j] == head[j];
      if i == 0 {} else if i == 1 {} else if i == 2 {} else if i == 3 {} else {}
    }
  }

  /** The fields before the payloads read back from the dump under their own names. */
  lemma MessageFieldGets(m: WebhookMessage)
    ensures var base := Present(MessageEntries(m));
      Get(base, "id") == Some(JStr(m.id)) && Get(base, "type") == Some(JStr(m.msgType)) &&
      Get(base, "timestamp") == Some(JStr(m.timestamp)) &&
      Get(base, "from_") == StrJson(m.sender) && Get(base, "to") == StrJson(m.to) &&
      Get(base, "context") == if m.context.Some? then Some(JObj(ContextDump(m.context.value))) else None
  {
    var es := MessageEntries(m);
    MessageEntriesDistinct(m);
    PresentGet(es, 0);
    PresentGet(es, 1);
    PresentGet(es, 2);
    PresentGet(es, 3);
    PresentGet(es, 4);
    PresentGet(es, 5);
  }

  /** A payload reads back from the message dump as from the payload dump. */
  lemma MessagePayloadGets(m: WebhookMessage)
    ensures forall k | k in PayloadNames :: Get(Present(MessageEntries(m)), k) == Get(PayloadsDump(m.payloads), k)
  {
    forall k | k in PayloadNames ensures Get(Present(MessageEntries(m)), k) == Get(PayloadsDump(m.payloads), k) {
      var j :| 0 <= j < |PayloadNames| && PayloadNames[j] == k;
      MessagePayloadGet(m, j);
      assert PayloadsDump(m.payloads) == Present(PayloadEntries(m.payloads));
    }
  }

  /** The `j`-th payload name reads back from both dumps alike. */
  lemma MessagePayloadGet(m: WebhookMessage, j: nat)
    requires j < |PayloadNames|
    ensures Get(Present(MessageEntries(m)), PayloadNames[j]) == Get(Present(PayloadEntries(m.payloads)), PayloadNames[j])
  {
    var es := MessageEntries(m);
    var ps := PayloadEntries(m.payloads);
    MessageEntriesDistinct(m);
    PayloadsDumpGets(m.payloads);
    PayloadEntryAt(m.payloads, j);
    MessageEntryAt(m, j + 6);
    assert es[j + 6] == ps[j];
    PresentGet(es, j + 6);
  }

  /** A key that names no field of a message is not in its dump. */
  lemma MessageOtherKeysAbsent(m: WebhookMessage)
    ensures forall k | k !in MessageNames :: Get(Present(MessageEntries(m)), k).None?
  {
    var es := MessageEntries(m);
    forall k | k !in MessageNames ensures Get(Present(es), k).None? {
      forall i | 0 <= i < |es| ensures es[i].0 != k {
        MessageEntryAt(m, i);
      }
      PresentAbsent(es, k);
    }
  }
}
