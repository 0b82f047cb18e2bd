/**
 * The outbound message input models (resources/messages/models.py): their
 * fields, defaults and length limits, checked when a model is built, and
 * `model_dump(exclude_none=True)` of each, in field declaration order.
 *
 * `Make...` is the validating constructor of a model: it fails with the
 * first field, in declaration order, that breaks a limit, and otherwise
 * stores its arguments with the declared defaults for those not given.
 */
module MessageModels {
  import opened Wrappers
  import opened JsonValues

  // ---------------------------------------------------------------------
  // Field checks
  // ---------------------------------------------------------------------

  /** `Field(max_length=n)` on a required string. */
  function MaxLen(s: string, n: nat, loc: string): (r: Result<string>)
    ensures r.Ok? <==> |s| <= n
    ensures r.Ok? ==> r.value == s
    ensures r.Err? ==> r.fault == ValidationError(loc)
  {
    if |s| <= n then Ok(s) else Err(ValidationError(loc))
  }

  /** `Field(None, max_length=n)` on an optional string. */
  function OptMaxLen(s: Option<string>, n: nat, loc: string): (r: Result<Option<string>>)
    ensures r.Ok? <==> s.None? || |s.value| <= n
    ensures r.Ok? ==> r.value == s
    ensures r.Err? ==> r.fault == ValidationError(loc)
  {
    if s.None? || |s.value| <= n then Ok(s) else Err(ValidationError(loc))
  }

  /** `Field(min_length=lo, max_length=hi)` on a list. */
  function Sized<T>(xs: seq<T>, lo: nat, hi: nat, loc: string): (r: Result<seq<T>>)
    ensures r.Ok? <==> lo <= |xs| <= hi
    ensures r.Ok? ==> r.value == xs
    ensures r.Err? ==> r.fault == ValidationError(loc)
  {
    if lo <= |xs| <= hi then Ok(xs) else Err(ValidationError(loc))
  }

  /** A required field that was not given. */
  function Required<T>(x: Option<T>, loc: string): (r: Result<T>)
    ensures r.Ok? <==> x.Some?
    ensures r.Ok? ==> r.value == x.value
    ensures r.Err? ==> r.fault == ValidationError(loc)
  {
    if x.Some? then Ok(x.value) else Err(ValidationError(loc))
  }

  // ---------------------------------------------------------------------
  // Dump helpers
  // ---------------------------------------------------------------------

  /** An optional string field in a dump: absent when `None`. */
  function OptStr(k: string, v: Option<string>): Fields {
    if v.Some? then [(k, JStr(v.value))] else []
  }

  /** `exclude_none` on one optional string field: its entry when given, no entry at all when `None`. */
  predicate OptionalEntry(r: Fields, k: string, v: Option<string>) {
    (v.Some? ==> (k, JStr(v.value)) in r) && (v.None? ==> forall i :: 0 <= i < |r| ==> r[i].0 != k)
  }

  /** The same for an optional dict field. */
  predicate OptionalDictEntry(r: Fields, k: string, v: Option<Fields>) {
    (v.Some? ==> (k, JObj(v.value)) in r) && (v.None? ==> forall i :: 0 <= i < |r| ==> r[i].0 != k)
  }

  function OptBool(k: string, v: Option<bool>): Fields {
    if v.Some? then [(k, JBool(v.value))] else []
  }

  function OptObj(k: string, v: Option<Fields>): Fields {
    if v.Some? then [(k, JObj(v.value))] else []
  }

  /** A `dict[str, str]` as JSON. */
  function StrDict(d: seq<(string, string)>): Fields {
    seq(|d|, i requires 0 <= i < |d| => (d[i].0, JStr(d[i].1)))
  }

  // ---------------------------------------------------------------------
  // BaseMessage
  // ---------------------------------------------------------------------

  /** `Literal["individual", "group"]`. */
  datatype RecipientType = Individual | Group {
    function Name(): string {
      match this
      case Individual => "individual"
      case Group => "group"
    }
  }

  function ParseRecipientType(s: Option<string>): (r: Result<RecipientType>)
    ensures r.Ok? <==> s.None? || s.value == "individual" || s.value == "group"
    ensures s.None? ==> r == Ok(Individual)
    ensures r.Ok? && s.Some? ==> r.value.Name() == s.value
    ensures r.Err? ==> r.fault == ValidationError("recipient_type")
  {
    if s.None? || s.value == "individual" then Ok(Individual)
    else if s.value == "group" then Ok(Group)
    else Err(ValidationError("recipient_type"))
  }

  datatype BaseMessage = BaseMessage(
    phoneNumberId: string, to: string, recipientType: RecipientType,
    contextMessageId: Option<string>, bizOpaqueCallbackData: Option<string>)

  /** `BaseMessage(...)`: phone_number_id and to are required; a given recipient_type must be one of the two literals. */
  function MakeBase(phoneNumberId: Option<string>, to: Option<string>, recipientType: Option<string>,
                    contextMessageId: Option<string>, bizOpaqueCallbackData: Option<string>): (r: Result<BaseMessage>)
    ensures r.Ok? <==>
      phoneNumberId.Some? && to.Some? &&
      (recipientType.None? || recipientType.value == "individual" || recipientType.value == "group") &&
      (bizOpaqueCallbackData.None? || |bizOpaqueCallbackData.value| <= 512)
    ensures r.Ok? ==>
      r.value.phoneNumberId == phoneNumberId.value && r.value.to == to.value &&
      r.value.recipientType.Name() == recipientType.GetOr("individual") &&
      r.value.contextMessageId == contextMessageId && r.value.bizOpaqueCallbackData == bizOpaqueCallbackData
    ensures r.Err? ==> r.fault.ValidationError?
  {
    var pid :- Required(phoneNumberId, "phone_number_id");
    var t :- Required(to, "to");
    var rt :- ParseRecipientType(recipientType);
    var biz :- OptMaxLen(bizOpaqueCallbackData, 512, "biz_opaque_callback_data");
    Ok(BaseMessage(pid, t, rt, contextMessageId, biz))
  }

  /**
   * The base fields of a dump: the three required ones first, then the two
   * optional ones, each present iff given.
   */
  function BaseDump(b: BaseMessage): (r: Fields)
    ensures |r| >= 3 && Keys(r)[..3] == ["phone_number_id", "to", "recipient_type"]
    ensures r[0].1 == JStr(b.phoneNumberId) && r[1].1 == JStr(b.to) && r[2].1 == JStr(b.recipientType.Name())
    ensures OptionalEntry(r, "context_message_id", b.contextMessageId)
    ensures OptionalEntry(r, "biz_opaque_callback_data", b.bizOpaqueCallbackData)
  {
    [("phone_number_id", JStr(b.phoneNumberId)), ("to", JStr(b.to)), ("recipient_type", JStr(b.recipientType.Name()))] +
    OptStr("context_message_id", b.contextMessageId) +
    OptStr("biz_opaque_callback_data", b.bizOpaqueCallbackData)
  }

  // ---------------------------------------------------------------------
  // Text, media, location, contacts, reaction, template
  // ---------------------------------------------------------------------

  /** `MediaById` / `MediaByLink` and the other `...ById | ...ByLink` unions. */
  datatype MediaSource = ById(id: string) | ByLink(link: string)

  function SourceDump(s: MediaSource): Fields {
    match s
    case ById(id) => [("id", JStr(id))]
    case ByLink(link) => [("link", JStr(link))]
  }

  datatype DocumentPayload = DocumentPayload(source: MediaSource, caption: Option<string>, filename: Option<string>)

  /** `DocumentPayloadById` / `DocumentPayloadByLink`: the filename is at most 240 characters. */
  function MakeDocument(source: MediaSource, caption: Option<string>, filename: Option<string>): (r: Result<DocumentPayload>)
    ensures r.Ok? <==> filename.None? || |filename.value| <= 240
    ensures r.Ok? ==> r.value == DocumentPayload(source, caption, filename)
  {
    var f :- OptMaxLen(filename, 240, "filename");
    Ok(DocumentPayload(source, caption, f))
  }

  datatype LocationPayload = LocationPayload(latitude: real, longitude: real, name: Option<string>, address: Option<string>)

  /** `LocationPayload`: name at most 100 and address at most 300 characters. */
  function MakeLocation(latitude: real, longitude: real, name: Option<string>, address: Option<string>): (r: Result<LocationPayload>)
    ensures r.Ok? <==> (name.None? || |name.value| <= 100) && (address.None? || |address.value| <= 300)
    ensures r.Ok? ==> r.value == LocationPayload(latitude, longitude, name, address)
  {
    var n :- OptMaxLen(name, 100, "name");
    var a :- OptMaxLen(address, 300, "address");
    Ok(LocationPayload(latitude, longitude, n, a))
  }

  datatype TemplateComponent = TemplateComponent(
    componentType: string, subType: Option<string>, index: Option<int>, parameters: seq<Fields>)

  datatype TemplatePayload = TemplatePayload(
    name: string, languageCode: string, languagePolicy: Option<string>, components: Option<seq<TemplateComponent>>)

  function ComponentDump(c: TemplateComponent): Json {
    JObj([("type", JStr(c.componentType))] + OptStr("sub_type", c.subType) +
      (if c.index.Some? then [("index", JInt(c.index.value))] else []) +
      [("parameters", JArr(seq(|c.parameters|, i requires 0 <= i < |c.parameters| => JObj(c.parameters[i]))))])
  }

  /**
   * The template dump: name, then the language dict with its code and the
   * policy iff given, then the components iff given.
   */
  function TemplateDump(t: TemplatePayload): (r: Fields)
    ensures |r| >= 2 && r[0] == ("name", JStr(t.name)) && r[1].0 == "language"
    ensures r[1].1.JObj? && |r[1].1.fields| >= 1 && r[1].1.fields[0] == ("code", JStr(t.languageCode))
    ensures OptionalEntry(r[1].1.fields, "policy", t.languagePolicy)
    ensures |r| == 3 <==> t.components.Some?
    ensures t.components.Some? ==> r[2].0 == "components" && r[2].1.JArr? && |r[2].1.items| == |t.components.value|
  {
    [("name", JStr(t.name)),
     ("language", JObj([("code", JStr(t.languageCode))] + OptStr("policy", t.languagePolicy)))] +
    (if t.components.Some? then
       [("components", JArr(seq(|t.components.value|, i requires 0 <= i < |t.components.value| => ComponentDump(t.components.value[i]))))]
     else [])
  }

  /** `ContactName`: `formatted_name` is required, the other five parts are optional. */
  datatype ContactName = ContactName(
    formattedName: string, firstName: Option<string>, lastName: Option<string>,
    middleName: Option<string>, suffix: Option<string>, prefix: Option<string>)

  function MakeContactName(formattedName: Option<string>, firstName: Option<string>, lastName: Option<string>,
                           middleName: Option<string>, suffix: Option<string>, prefix: Option<string>): (r: Result<ContactName>)
    ensures r.Ok? <==> formattedName.Some?
    ensures r.Ok? ==> r.value == ContactName(formattedName.value, firstName, lastName, middleName, suffix, prefix)
    ensures r.Err? ==> r.fault == ValidationError("formatted_name")
  {
    var f :- Required(formattedName, "formatted_name");
    Ok(ContactName(f, firstName, lastName, middleName, suffix, prefix))
  }

  /** The models of a contact card whose fields are all `str | None = None`. */
  datatype ContactAddress = ContactAddress(
    street: Option<string>, city: Option<string>, state: Option<string>, zip: Option<string>,
    country: Option<string>, countryCode: Option<string>, addressType: Option<string>)
  datatype ContactEmail = ContactEmail(email: Option<string>, emailType: Option<string>)
  datatype ContactOrg = ContactOrg(company: Option<string>, department: Option<string>, title: Option<string>)
  datatype ContactPhone = ContactPhone(phone: Option<string>, waId: Option<string>, phoneType: Option<string>)
  datatype ContactUrl = ContactUrl(url: Option<string>, urlType: Option<string>)

  /** `Contact`: a name, and optional birthday, address, email, phone and URL lists and organisation. */
  datatype Contact = Contact(
    name: ContactName, birthday: Option<string>, addresses: Option<seq<ContactAddress>>,
    emails: Option<seq<ContactEmail>>, org: Option<ContactOrg>, phones: Option<seq<ContactPhone>>,
    urls: Option<seq<ContactUrl>>)

  function ContactNameDump(n: ContactName): Fields {
    [("formatted_name", JStr(n.formattedName))] + OptStr("first_name", n.firstName) +
    OptStr("last_name", n.lastName) + OptStr("middle_name", n.middleName) +
    OptStr("suffix", n.suffix) + OptStr("prefix", n.prefix)
  }

  function AddressDump(a: ContactAddress): Fields {
    OptStr("street", a.street) + OptStr("city", a.city) + OptStr("state", a.state) + OptStr("zip", a.zip) +
    OptStr("country", a.country) + OptStr("country_code", a.countryCode) + OptStr("type", a.addressType)
  }

  function EmailDump(e: ContactEmail): Fields {
    OptStr("email", e.email) + OptStr("type", e.emailType)
  }

  function OrgDump(o: ContactOrg): Fields {
    OptStr("company", o.company) + OptStr("department", o.department) + OptStr("title", o.title)
  }

  function PhoneDump(p: ContactPhone): Fields {
    OptStr("phone", p.phone) + OptStr("wa_id", p.waId) + OptStr("type", p.phoneType)
  }

  function UrlDump(u: ContactUrl): Fields {
    OptStr("url", u.url) + OptStr("type", u.urlType)
  }

  /** An optional list of sub-models in a dump: absent when `None`, else one dict per item. */
  function OptList<T>(k: string, xs: Option<seq<T>>, dump: T -> Fields): Fields {
    if xs.Some? then [(k, JArr(seq(|xs.value|, i requires 0 <= i < |xs.value| => JObj(dump(xs.value[i])))))] else []
  }

  /** `Contact.model_dump(exclude_none=True)`: the nested dump drops `None` at every level. */
  function ContactDump(c: Contact): Fields {
    [("name", JObj(ContactNameDump(c.name)))] + OptStr("birthday", c.birthday) +
    OptList("addresses", c.addresses, AddressDump) + OptList("emails", c.emails, EmailDump) +
    (if c.org.Some? then [("org", JObj(OrgDump(c.org.value)))] else []) +
    OptList("phones", c.phones, PhoneDump) + OptList("urls", c.urls, UrlDump)
  }

  /** No `None` survives `exclude_none`: every value is a string, or a list or dict of such. */
  predicate NoNulls(j: Json)
    decreases j
  {
    match j
    case JNull => false
    case JArr(items) => forall i :: 0 <= i < |items| ==> NoNulls(items[i])
    case JObj(f) => forall i :: 0 <= i < |f| ==> NoNulls(f[i].1)
    case _ => true
  }

  /** Every value of a flat dump is a string. */
  predicate StrValues(f: Fields) {
    forall i :: 0 <= i < |f| ==> f[i].1.JStr?
  }

  lemma StrValuesConcat(a: Fields, b: Fields)
    requires StrValues(a) && StrValues(b)
    ensures StrValues(a + b)
  {
  }

  lemma NoNullsConcat(a: Fields, b: Fields)
    requires NoNulls(JObj(a)) && NoNulls(JObj(b))
    ensures NoNulls(JObj(a + b))
  {
    assert forall i :: 0 <= i < |a + b| ==> (a + b)[i] == if i < |a| then a[i] else b[i - |a|];
  }

  lemma StrValuesNoNulls(f: Fields)
    requires StrValues(f)
    ensures NoNulls(JObj(f))
  {
  }

  lemma OptListNoNulls<T>(k: string, xs: Option<seq<T>>, dump: T -> Fields)
    requires forall x :: StrValues(dump(x))
    ensures NoNulls(JObj(OptList(k, xs, dump)))
  {
    if xs.Some? {
      var items := seq(|xs.value|, i requires 0 <= i < |xs.value| => JObj(dump(xs.value[i])));
      forall i | 0 <= i < |items| ensures NoNulls(items[i]) {
        StrValuesNoNulls(dump(xs.value[i]));
      }
      assert OptList(k, xs, dump) == [(k, JArr(items))];
    }
  }

  /** Every part of a dumped name is a string, and `formatted_name` leads. */
  lemma ContactNameDumpFacts(n: ContactName)
    ensures ContactNameDump(n)[0] == ("formatted_name", JStr(n.formattedName))
    ensures StrValues(ContactNameDump(n))
  {
    var f := [("formatted_name", JStr(n.formattedName))];
    StrValuesConcat(f, OptStr("first_name", n.firstName));
    var g := f + OptStr("first_name", n.firstName);
    StrValuesConcat(g, OptStr("last_name", n.lastName));
    var h := g + OptStr("last_name", n.lastName);
    StrValuesConcat(h, OptStr("middle_name", n.middleName));
    var m := h + OptStr("middle_name", n.middleName);
    StrValuesConcat(m, OptStr("suffix", n.suffix));
    StrValuesConcat(m + OptStr("suffix", n.suffix), OptStr("prefix", n.prefix));
  }

  lemma SubModelStrValues()
    ensures forall a :: StrValues(AddressDump(a))
    ensures forall e :: StrValues(EmailDump(e))
    ensures forall o :: StrValues(OrgDump(o))
    ensures forall p :: StrValues(PhoneDump(p))
    ensures forall u :: StrValues(UrlDump(u))
  {
  }

  /**
   * A dumped contact: its `name` entry comes first and holds the formatted
   * name, and no `None` is left at any level.
   */
  lemma ContactDumpFacts(c: Contact)
    ensures ContactDump(c)[0] == ("name", JObj(ContactNameDump(c.name)))
    ensures NoNulls(JObj(ContactDump(c)))
  {
    var front := [("name", JObj(ContactNameDump(c.name)))] + OptStr("birthday", c.birthday) +
      OptList("addresses", c.addresses, AddressDump) + OptList("emails", c.emails, EmailDump);
    var back := (if c.org.Some? then [("org", JObj(OrgDump(c.org.value)))] else []) +
      OptList("phones", c.phones, PhoneDump) + OptList("urls", c.urls, UrlDump);
    ContactFrontNoNulls(c);
    ContactBackNoNulls(c);
    NoNullsConcat(front, back);
    assert ContactDump(c) == front + back;
  }

  /** The name, birthday, addresses and emails of a dumped contact hold no `None`. */
  lemma ContactFrontNoNulls(c: Contact)
    ensures NoNulls(JObj([("name", JObj(ContactNameDump(c.name)))] + OptStr("birthday", c.birthday) +
      OptList("addresses", c.addresses, AddressDump) + OptList("emails", c.emails, EmailDump)))
  {
    ContactNameDumpFacts(c.name);
    SubModelStrValues();
    StrValuesNoNulls(ContactNameDump(c.name));
    var head: Fields := [("name", JObj(ContactNameDump(c.name)))];
    var birthday := OptStr("birthday", c.birthday);
    assert NoNulls(JObj(head));
    StrValuesNoNulls(birthday);
    OptListNoNulls("addresses", c.addresses, AddressDump);
    OptListNoNulls("emails", c.emails, EmailDump);
    var a := OptList("addresses", c.addresses, AddressDump);
    var e := OptList("emails", c.emails, EmailDump);
    NoNullsConcat(head, birthday);
    NoNullsConcat(head + birthday, a);
    NoNullsConcat(head + birthday + a, e);
  }

  /** The organisation, phones and urls of a dumped contact hold no `None`. */
  lemma ContactBackNoNulls(c: Contact)
    ensures NoNulls(JObj((if c.org.Some? then [("org", JObj(OrgDump(c.org.value)))] else []) +
      OptList("phones", c.phones, PhoneDump) + OptList("urls", c.urls, UrlDump)))
  {
    SubModelStrValues();
    var org: Fields := if c.org.Some? then [("org", JObj(OrgDump(c.org.value)))] else [];
    if c.org.Some? {
      StrValuesNoNulls(OrgDump(c.org.value));
    }
    assert NoNulls(JObj(org));
    OptListNoNulls("phones", c.phones, PhoneDump);
    OptListNoNulls("urls", c.urls, UrlDump);
    var p := OptList("phones", c.phones, PhoneDump);
    var u := OptList("urls", c.urls, UrlDump);
    NoNullsConcat(org, p);
    NoNullsConcat(org + p, u);
  }

  /** The type-specific part of the non-interactive messages. */
  datatype Payload =
    | Text(body: string, previewUrl: bool)
    | Image(media: MediaSource, caption: Option<string>)
    | Audio(audio: MediaSource, voice: Option<bool>)
    | Video(video: MediaSource, videoCaption: Option<string>)
    | Document(document: DocumentPayload)
    | Sticker(sticker: MediaSource)
    | Location(location: LocationPayload)
    | Contacts(contacts: seq<Contact>)
    | Reaction(messageId: string, emoji: Option<string>)
    | Template(template: TemplatePayload)

  /** `TextMessage`, `ImageMessage`, ...: a `BaseMessage` with one payload. */
  datatype OutboundMessage = OutboundMessage(base: BaseMessage, payload: Payload)

  /** `TextMessage(...)`: `preview_url` defaults to False. */
  function MakeText(base: BaseMessage, body: string, previewUrl: Option<bool>): (r: OutboundMessage)
    ensures r.payload.Text? && r.base == base && r.payload.body == body
    ensures r.payload.previewUrl == (previewUrl.Some? && previewUrl.value)
  {
    OutboundMessage(base, Text(body, previewUrl.GetOr(false)))
  }

  /** The `msg_type` each `send_*` passes to `_send`. */
  function MessageType(p: Payload): string {
    match p
    case Text(_, _) => "text"
    case Image(_, _) => "image"
    case Audio(_, _) => "audio"
    case Video(_, _) => "video"
    case Document(_) => "document"
    case Sticker(_) => "sticker"
    case Location(_) => "location"
    case Contacts(_) => "contacts"
    case Reaction(_, _) => "reaction"
    case Template(_) => "template"
  }

  /** One entry for a given optional field, none for a missing one. */
  function Count<T>(o: Option<T>): nat {
    if o.Some? then 1 else 0
  }

  /** The entry a media source dumps to: its id, or its link. */
  function SourceEntry(s: MediaSource): (string, Json) {
    if s.ById? then ("id", JStr(s.id)) else ("link", JStr(s.link))
  }

  /** A dumped media object: the id or link first, then `extras` optional entries. */
  predicate MediaObject(j: Json, s: MediaSource, extras: nat) {
    j.JObj? && |j.fields| == 1 + extras && j.fields[0] == SourceEntry(s)
  }

  /**
   * What a non-text message puts under its type: a media object holds its
   * id or link first and then each optional field only when given; a
   * location its coordinates and then its name and address when given; a
   * reaction the message id and then the emoji when given; contacts one
   * dumped contact per contact, in order; a template its dump.
   */
  predicate PayloadObject(p: Payload, obj: Json) {
    match p
    case Text(_, _) => false
    case Image(s, caption) => MediaObject(obj, s, Count(caption)) && OptionalEntry(obj.fields, "caption", caption)
    case Audio(s, voice) =>
      MediaObject(obj, s, Count(voice)) && (voice.Some? ==> obj.fields[1] == ("voice", JBool(voice.value)))
    case Video(s, caption) => MediaObject(obj, s, Count(caption)) && OptionalEntry(obj.fields, "caption", caption)
    case Document(d) =>
      MediaObject(obj, d.source, Count(d.caption) + Count(d.filename)) &&
      OptionalEntry(obj.fields, "caption", d.caption) && OptionalEntry(obj.fields, "filename", d.filename)
    case Sticker(s) => MediaObject(obj, s, 0)
    case Location(l) =>
      obj.JObj? && |obj.fields| == 2 + Count(l.name) + Count(l.address) &&
      obj.fields[0] == ("latitude", JFloat(l.latitude)) && obj.fields[1] == ("longitude", JFloat(l.longitude)) &&
      OptionalEntry(obj.fields, "name", l.name) && OptionalEntry(obj.fields, "address", l.address)
    case Contacts(cs) =>
      obj.JArr? && |obj.items| == |cs| && forall i :: 0 <= i < |cs| ==> obj.items[i] == JObj(ContactDump(cs[i]))
    case Reaction(id, emoji) =>
      obj.JObj? && |obj.fields| == 1 + Count(emoji) &&
      obj.fields[0] == ("message_id", JStr(id)) && OptionalEntry(obj.fields, "emoji", emoji)
    case Template(t) => obj == JObj(TemplateDump(t))
  }

  /**
   * The dump of the payload fields, which follow the base fields: a text's
   * body and preview flag, or one entry under the message type whose object
   * holds the payload's own fields, each optional one only when given.
   */
  function PayloadDump(p: Payload): (r: Fields)
    ensures p.Text? ==> Keys(r) == ["body", "preview_url"] && r[0].1 == JStr(p.body) && r[1].1 == JBool(p.previewUrl)
    ensures !p.Text? ==> |r| == 1 && r[0].0 == MessageType(p)
  {
    match p
    case Text(body, preview) => [("body", JStr(body)), ("preview_url", JBool(preview))]
    case Image(s, caption) => [("image", JObj(SourceDump(s) + OptStr("caption", caption)))]
    case Audio(s, voice) => [("audio", JObj(SourceDump(s) + OptBool("voice", voice)))]
    case Video(s, caption) => [("video", JObj(SourceDump(s) + OptStr("caption", caption)))]
    case Document(d) =>
      [("document", JObj(SourceDump(d.source) + OptStr("caption", d.caption) + OptStr("filename", d.filename)))]
    case Sticker(s) => [("sticker", JObj(SourceDump(s)))]
    case Location(l) =>
      [("location", JObj([("latitude", JFloat(l.latitude)), ("longitude", JFloat(l.longitude))] +
        OptStr("name", l.name) + OptStr("address", l.address)))]
    case Contacts(cs) => [("contacts", JArr(seq(|cs|, i requires 0 <= i < |cs| => JObj(ContactDump(cs[i])))))]
    case Reaction(id, emoji) => [("reaction", JObj([("message_id", JStr(id))] + OptStr("emoji", emoji)))]
    case Template(t) => [("template", JObj(TemplateDump(t)))]
  }

  /** The object a non-text payload dumps under its type holds the payload's own fields. */
  lemma PayloadObjectDumped(p: Payload)
    requires !p.Text?
    ensures PayloadObject(p, PayloadDump(p)[0].1)
  {
    match p
    case Image(s, caption) => MediaFields(s, caption, "caption");
    case Video(s, caption) => MediaFields(s, caption, "caption");
    case Document(d) => DocumentFields(d);
    case Location(l) => LocationFields(l);
    case Reaction(id, emoji) => OptStrAfter([("message_id", JStr(id))], "emoji", emoji);
    case _ =>
  }

  /** A source and one optional string field. */
  lemma MediaFields(s: MediaSource, v: Option<string>, k: string)
    requires k != "id" && k != "link"
    ensures var f := SourceDump(s) + OptStr(k, v);
      |f| == 1 + Count(v) && f[0] == SourceEntry(s) && OptionalEntry(f, k, v)
  {
    OptStrAfter(SourceDump(s), k, v);
  }

  lemma DocumentFields(d: DocumentPayload)
    ensures var f := SourceDump(d.source) + OptStr("caption", d.caption) + OptStr("filename", d.filename);
      |f| == 1 + Count(d.caption) + Count(d.filename) && f[0] == SourceEntry(d.source) &&
      OptionalEntry(f, "caption", d.caption) && OptionalEntry(f, "filename", d.filename)
  {
    var a := SourceDump(d.source) + OptStr("caption", d.caption);
    OptStrAfter(SourceDump(d.source), "caption", d.caption);
    OptStrAfter(a, "filename", d.filename);
    OptionalEntryExtend(a, OptStr("filename", d.filename), "caption", d.caption);
  }

  lemma LocationFields(l: LocationPayload)
    ensures var f := [("latitude", JFloat(l.latitude)), ("longitude", JFloat(l.longitude))] +
        OptStr("name", l.name) + OptStr("address", l.address);
      |f| == 2 + Count(l.name) + Count(l.address) &&
      OptionalEntry(f, "name", l.name) && OptionalEntry(f, "address", l.address)
  {
    var head: Fields := [("latitude", JFloat(l.latitude)), ("longitude", JFloat(l.longitude))];
    var a := head + OptStr("name", l.name);
    OptStrAfter(head, "name", l.name);
    OptStrAfter(a, "address", l.address);
    OptionalEntryExtend(a, OptStr("address", l.address), "name", l.name);
  }

  /** An optional string field appended to entries under other keys. */
  lemma OptStrAfter(f: Fields, k: string, v: Option<string>)
    requires forall i :: 0 <= i < |f| ==> f[i].0 != k
    ensures OptionalEntry(f + OptStr(k, v), k, v)
    ensures |f + OptStr(k, v)| == |f| + Count(v)
    ensures (f + OptStr(k, v))[..|f|] == f
  {
  }

  /** Entries under other keys appended after an optional field leave it as it was. */
  lemma OptionalEntryExtend(f: Fields, g: Fields, k: string, v: Option<string>)
    requires OptionalEntry(f, k, v)
    requires forall i :: 0 <= i < |g| ==> g[i].0 != k
    ensures OptionalEntry(f + g, k, v)
  {
    if v.None? {
      forall i | 0 <= i < |f + g| ensures (f + g)[i].0 != k {
        if i >= |f| {
          assert (f + g)[i] == g[i - |f|];
        }
      }
    }
  }

  /**
   * `_serialize(input)`: `model_dump(exclude_none=True)`, the base fields
   * first, with their values, and the payload's dump last.
   */
  function Serialize(m: OutboundMessage): (r: Fields)
    ensures |r| >= 4 && Keys(r)[..3] == ["phone_number_id", "to", "recipient_type"]
    ensures r[0].1 == JStr(m.base.phoneNumberId) && r[1].1 == JStr(m.base.to) && r[2].1 == JStr(m.base.recipientType.Name())
    ensures |r| == |BaseDump(m.base)| + |PayloadDump(m.payload)|
    ensures r[..|BaseDump(m.base)|] == BaseDump(m.base) && r[|BaseDump(m.base)|..] == PayloadDump(m.payload)
    ensures !m.payload.Text? ==> r[|r| - 1].0 == MessageType(m.payload)
    ensures m.payload.Text? ==> r[|r| - 2] == ("body", JStr(m.payload.body))
  {
    BaseDump(m.base) + PayloadDump(m.payload)
  }

  // ---------------------------------------------------------------------
  // Interactive inputs
  // ---------------------------------------------------------------------

  /** `InteractiveHeader`, whose `type` is `Literal["text", "image", "video", "document"]`. */
  datatype InteractiveHeader = InteractiveHeader(
    headerType: string, text: Option<string>,
    image: Option<seq<(string, string)>>, video: Option<seq<(string, string)>>, document: Option<seq<(string, string)>>)

  function MakeHeader(headerType: string, text: Option<string>, image: Option<seq<(string, string)>>,
                      video: Option<seq<(string, string)>>, document: Option<seq<(string, string)>>): (r: Result<InteractiveHeader>)
    ensures r.Ok? <==> headerType == "text" || headerType == "image" || headerType == "video" || headerType == "document"
    ensures r.Ok? ==> r.value == InteractiveHeader(headerType, text, image, video, document)
  {
    if headerType == "text" || headerType == "image" || headerType == "video" || headerType == "document" then
      Ok(InteractiveHeader(headerType, text, image, video, document))
    else Err(ValidationError("type"))
  }

  /** The header dump: its type first, then each media or text part iff given. */
  function HeaderDump(h: InteractiveHeader): (r: Fields)
    ensures |r| >= 1 && r[0] == ("type", JStr(h.headerType))
    ensures OptionalEntry(r, "text", h.text)
    ensures OptionalDictEntry(r, "image", if h.image.Some? then Some(StrDict(h.image.value)) else None)
    ensures OptionalDictEntry(r, "video", if h.video.Some? then Some(StrDict(h.video.value)) else None)
    ensures OptionalDictEntry(r, "document", if h.document.Some? then Some(StrDict(h.document.value)) else None)
  {
    [("type", JStr(h.headerType))] + OptStr("text", h.text) +
    OptObj("image", if h.image.Some? then Some(StrDict(h.image.value)) else None) +
    OptObj("video", if h.video.Some? then Some(StrDict(h.video.value)) else None) +
    OptObj("document", if h.document.Some? then Some(StrDict(h.document.value)) else None)
  }

  datatype InteractiveButton = InteractiveButton(id: string, title: string)

  /** `InteractiveButton`: id at most 256 and title at most 20 characters. */
  function MakeButton(id: string, title: string): (r: Result<InteractiveButton>)
    ensures r.Ok? <==> |id| <= 256 && |title| <= 20
    ensures r.Ok? ==> r.value == InteractiveButton(id, title)
  {
    var i :- MaxLen(id, 256, "id");
    var t :- MaxLen(title, 20, "title");
    Ok(InteractiveButton(i, t))
  }

  datatype ButtonsMessage = ButtonsMessage(
    base: BaseMessage, bodyText: string, footerText: Option<string>,
    header: Option<InteractiveHeader>, buttons: seq<InteractiveButton>)

  /** `InteractiveButtonsMessage`: body at most 1024, footer at most 60, one to three buttons. */
  function MakeButtonsMessage(base: BaseMessage, bodyText: string, footerText: Option<string>,
                              header: Option<InteractiveHeader>, buttons: seq<InteractiveButton>): (r: Result<ButtonsMessage>)
    ensures r.Ok? <==> |bodyText| <= 1024 && (footerText.None? || |footerText.value| <= 60) && 1 <= |buttons| <= 3
    ensures r.Ok? ==> r.value == ButtonsMessage(base, bodyText, footerText, header, buttons)
  {
    var b :- MaxLen(bodyText, 1024, "body_text");
    var f :- OptMaxLen(footerText, 60, "footer_text");
    var bs :- Sized(buttons, 1, 3, "buttons");
    Ok(ButtonsMessage(base, b, f, header, bs))
  }

  datatype ListRow = ListRow(id: string, title: string, description: Option<string>)

  /** `ListRow`: id at most 200, title at most 24, description at most 72 characters. */
  function MakeListRow(id: string, title: string, description: Option<string>): (r: Result<ListRow>)
    ensures r.Ok? <==> |id| <= 200 && |title| <= 24 && (description.None? || |description.value| <= 72)
    ensures r.Ok? ==> r.value == ListRow(id, title, description)
  {
    var i :- MaxLen(id, 200, "id");
    var t :- MaxLen(title, 24, "title");
    var d :- OptMaxLen(description, 72, "description");
    Ok(ListRow(i, t, d))
  }

  function RowDump(r: ListRow): Fields {
    [("id", JStr(r.id)), ("title", JStr(r.title))] + OptStr("description", r.description)
  }

  datatype ListSection = ListSection(title: Option<string>, rows: seq<ListRow>)

  /** `ListSection`: title at most 24 characters, one to ten rows. */
  function MakeListSection(title: Option<string>, rows: seq<ListRow>): (r: Result<ListSection>)
    ensures r.Ok? <==> (title.None? || |title.value| <= 24) && 1 <= |rows| <= 10
    ensures r.Ok? ==> r.value == ListSection(title, rows)
  {
    var t :- OptMaxLen(title, 24, "title");
    var rs :- Sized(rows, 1, 10, "rows");
    Ok(ListSection(t, rs))
  }

  datatype ListMessage = ListMessage(
    base: BaseMessage, bodyText: string, buttonText: string, header: Option<InteractiveHeader>,
    footerText: Option<string>, sections: seq<ListSection>)

  /** `InteractiveListMessage`: body at most 4096, button at most 20, footer at most 60, one to ten sections. */
  function MakeListMessage(base: BaseMessage, bodyText: string, buttonText: string, header: Option<InteractiveHeader>,
                           footerText: Option<string>, sections: seq<ListSection>): (r: Result<ListMessage>)
    ensures r.Ok? <==>
      |bodyText| <= 4096 && |buttonText| <= 20 && (footerText.None? || |footerText.value| <= 60) &&
      1 <= |sections| <= 10
    ensures r.Ok? ==> r.value == ListMessage(base, bodyText, buttonText, header, footerText, sections)
  {
    var b :- MaxLen(bodyText, 4096, "body_text");
    var bt :- MaxLen(buttonText, 20, "button_text");
    var f :- OptMaxLen(footerText, 60, "footer_text");
    var ss :- Sized(sections, 1, 10, "sections");
    Ok(ListMessage(base, b, bt, header, f, ss))
  }

  datatype ProductMessage = ProductMessage(
    base: BaseMessage, bodyText: Option<string>, footerText: Option<string>,
    catalogId: string, productRetailerId: string)

  /** `InteractiveProductMessage`: optional body at most 1024, footer at most 60. */
  function MakeProductMessage(base: BaseMessage, bodyText: Option<string>, footerText: Option<string>,
                              catalogId: string, productRetailerId: string): (r: Result<ProductMessage>)
    ensures r.Ok? <==> (bodyText.None? || |bodyText.value| <= 1024) && (footerText.None? || |footerText.value| <= 60)
    ensures r.Ok? ==> r.value == ProductMessage(base, bodyText, footerText, catalogId, productRetailerId)
  {
    var b :- OptMaxLen(bodyText, 1024, "body_text");
    var f :- OptMaxLen(footerText, 60, "footer_text");
    Ok(ProductMessage(base, b, f, catalogId, productRetailerId))
  }

  /** `ProductSection`, its items given by `product_retailer_id`. */
  datatype ProductSection = ProductSection(title: string, productItems: seq<string>)

  /** `ProductSection`: title at most 24 characters, one to thirty items. */
  function MakeProductSection(title: string, productItems: seq<string>): (r: Result<ProductSection>)
    ensures r.Ok? <==> |title| <= 24 && 1 <= |productItems| <= 30
    ensures r.Ok? ==> r.value == ProductSection(title, productItems)
  {
    var t :- MaxLen(title, 24, "title");
    var items :- Sized(productItems, 1, 30, "product_items");
    Ok(ProductSection(t, items))
  }

  datatype ProductListMessage = ProductListMessage(
    base: BaseMessage, bodyText: string, footerText: Option<string>, header: InteractiveHeader,
    catalogId: string, sections: seq<ProductSection>)

  /** `InteractiveProductListMessage`: body at most 1024, a header, one to ten sections. */
  function MakeProductListMessage(base: BaseMessage, bodyText: string, footerText: Option<string>,
                                  header: Option<InteractiveHeader>, catalogId: string,
                                  sections: seq<ProductSection>): (r: Result<ProductListMessage>)
    ensures r.Ok? <==> |bodyText| <= 1024 && header.Some? && 1 <= |sections| <= 10
    ensures r.Ok? ==> r.value == ProductListMessage(base, bodyText, footerText, header.value, catalogId, sections)
  {
    var b :- MaxLen(bodyText, 1024, "body_text");
    var h :- Required(header, "header");
    var ss :- Sized(sections, 1, 10, "sections");
    Ok(ProductListMessage(base, b, footerText, h, catalogId, ss))
  }

  datatype FlowParameters = FlowParameters(
    flowId: string, flowCta: string, flowMessageVersion: string, flowToken: Option<string>,
    flowAction: Option<string>, flowActionPayload: Option<Fields>)

  /**
   * `FlowParameters`: the call-to-action at most 20 characters, the message
   * version "3" unless given, and an action, when given, one of the two literals.
   */
  function MakeFlowParameters(flowId: string, flowCta: string, flowMessageVersion: Option<string>,
                              flowToken: Option<string>, flowAction: Option<string>,
                              flowActionPayload: Option<Fields>): (r: Result<FlowParameters>)
    ensures r.Ok? <==>
      |flowCta| <= 20 && (flowAction.None? || flowAction.value == "navigate" || flowAction.value == "data_exchange")
    ensures r.Ok? ==>
      r.value == FlowParameters(flowId, flowCta, flowMessageVersion.GetOr("3"), flowToken, flowAction, flowActionPayload)
  {
    var cta :- MaxLen(flowCta, 20, "flow_cta");
    if flowAction.Some? && flowAction.value != "navigate" && flowAction.value != "data_exchange" then
      Err(ValidationError("flow_action"))
    else
      Ok(FlowParameters(flowId, cta, flowMessageVersion.GetOr("3"), flowToken, flowAction, flowActionPayload))
  }

  /** The flow parameters dump: the three required fields first, then each optional one iff given. */
  function FlowParametersDump(p: FlowParameters): (r: Fields)
    ensures |r| >= 3 && Keys(r)[..3] == ["flow_id", "flow_cta", "flow_message_version"]
    ensures r[0].1 == JStr(p.flowId) && r[1].1 == JStr(p.flowCta) && r[2].1 == JStr(p.flowMessageVersion)
    ensures OptionalEntry(r, "flow_token", p.flowToken)
    ensures OptionalEntry(r, "flow_action", p.flowAction)
    ensures OptionalDictEntry(r, "flow_action_payload", p.flowActionPayload)
  {
    [("flow_id", JStr(p.flowId)), ("flow_cta", JStr(p.flowCta)), ("flow_message_version", JStr(p.flowMessageVersion))] +
    OptStr("flow_token", p.flowToken) + OptStr("flow_action", p.flowAction) +
    OptObj("flow_action_payload", p.flowActionPayload)
  }

  datatype FlowMessage = FlowMessage(
    base: BaseMessage, bodyText: string, footerText: Option<string>, header: Option<InteractiveHeader>,
    parameters: FlowParameters)

  /** `InteractiveFlowMessage`: body at most 1024 characters. */
  function MakeFlowMessage(base: BaseMessage, bodyText: string, footerText: Option<string>,
                           header: Option<InteractiveHeader>, parameters: FlowParameters): (r: Result<FlowMessage>)
    ensures r.Ok? <==> |bodyText| <= 1024
    ensures r.Ok? ==> r.value == FlowMessage(base, bodyText, footerText, header, parameters)
  {
    var b :- MaxLen(bodyText, 1024, "body_text");
    Ok(FlowMessage(base, b, footerText, header, parameters))
  }

  datatype CtaUrlMessage = CtaUrlMessage(
    base: BaseMessage, bodyText: string, header: Option<InteractiveHeader>, footerText: Option<string>,
    displayText: string, url: string)

  /** `InteractiveCtaUrlMessage` with its `CtaUrlParameters`: body at most 1024, display text at most 20. */
  function MakeCtaUrlMessage(base: BaseMessage, bodyText: string, header: Option<InteractiveHeader>,
                             footerText: Option<string>, displayText: string, url: string): (r: Result<CtaUrlMessage>)
    ensures r.Ok? <==> |bodyText| <= 1024 && |displayText| <= 20
    ensures r.Ok? ==> r.value == CtaUrlMessage(base, bodyText, header, footerText, displayText, url)
  {
    var b :- MaxLen(bodyText, 1024, "body_text");
    var d :- MaxLen(displayText, 20, "display_text");
    Ok(CtaUrlMessage(base, b, header, footerText, d, url))
  }

  datatype LocationRequestMessage = LocationRequestMessage(
    base: BaseMessage, bodyText: string, footerText: Option<string>, requestMessage: string)

  /** `InteractiveLocationRequestMessage` with its parameters: body and request message at most 1024. */
  function MakeLocationRequestMessage(base: BaseMessage, bodyText: string, footerText: Option<string>,
                                      requestMessage: string): (r: Result<LocationRequestMessage>)
    ensures r.Ok? <==> |bodyText| <= 1024 && |requestMessage| <= 1024
    ensures r.Ok? ==> r.value == LocationRequestMessage(base, bodyText, footerText, requestMessage)
  {
    var b :- MaxLen(bodyText, 1024, "body_text");
    var m :- MaxLen(requestMessage, 1024, "request_message");
    Ok(LocationRequestMessage(base, b, footerText, m))
  }

  /** `InteractiveCatalogMessage`; `parameters` is `None` or a `CatalogParameters` whose thumbnail may be `None`. */
  datatype CatalogMessage = CatalogMessage(
    base: BaseMessage, bodyText: Option<string>, parameters: Option<Option<string>>)

  /** `InteractiveCatalogMessage`: optional body at most 1024 characters. */
  function MakeCatalogMessage(base: BaseMessage, bodyText: Option<string>, parameters: Option<Option<string>>): (r: Result<CatalogMessage>)
    ensures r.Ok? <==> bodyText.None? || |bodyText.value| <= 1024
    ensures r.Ok? ==> r.value == CatalogMessage(base, bodyText, parameters)
  {
    var b :- OptMaxLen(bodyText, 1024, "body_text");
    Ok(CatalogMessage(base, b, parameters))
  }

  /** `MarkReadInput`. */
  datatype MarkReadInput = MarkReadInput(phoneNumberId: string, messageId: string)

  // ---------------------------------------------------------------------
  // Limits as the tests exercise them
  // ---------------------------------------------------------------------

  /** A 21-character button title, four buttons, or eleven list sections are each rejected. */
  lemma LimitsAtTheEdge(base: BaseMessage, b: InteractiveButton, s: ListSection)
    ensures MakeButton("b1", "abcdefghijklmnopqrstu").Err?
    ensures MakeButton("b1", "abcdefghijklmnopqrst").Ok?
    ensures MakeButtonsMessage(base, "pick", None, None, [b, b, b, b]).Err?
    ensures MakeButtonsMessage(base, "pick", None, None, []).Err?
    ensures MakeButtonsMessage(base, "pick", None, None, [b, b, b]).Ok?
    ensures MakeListMessage(base, "pick", "menu", None, None, seq(11, _ => s)).Err?
    ensures MakeListMessage(base, "pick", "menu", None, None, seq(10, _ => s)).Ok?
  {
  }

  /** Omitting `recipient_type` gives "individual"; any word but the two literals is rejected. */
  lemma RecipientTypeDefault(pid: string, to: string)
    ensures MakeBase(Some(pid), Some(to), None, None, None) == Ok(BaseMessage(pid, to, Individual, None, None))
    ensures MakeBase(Some(pid), Some(to), Some("broadcast"), None, None).Err?
    ensures MakeBase(None, Some(to), None, None, None).Err? && MakeBase(Some(pid), None, None, None, None).Err?
  {
  }
}
