/**
 * The phone numbers resource: code request and verification, registration,
 * the business profile and the settings of a business phone number. Every
 * call goes to a path under the phone number id and returns the decoded
 * response; only the profile read goes through a response model, passed in
 * as its `model_validate`.
 */
module PhoneNumbers {
  import opened Wrappers
  import opened JsonValues
  import opened Client

  // ---------------------------------------------------------------------
  // Input models
  // ---------------------------------------------------------------------

  /** `code_method` is "SMS" or "VOICE" by convention; the model does not check it. */
  datatype RequestCodeInput = RequestCodeInput(phoneNumberId: string, codeMethod: string, language: string)

  /** `RequestCodeInput(...)`: `language` needs at least two characters. */
  function MakeRequestCodeInput(phoneNumberId: string, codeMethod: string, language: string): (r: Result<RequestCodeInput>)
    ensures r.Ok? <==> |language| >= 2
    ensures r.Ok? ==> r.value == RequestCodeInput(phoneNumberId, codeMethod, language)
    ensures r.Err? ==> r.fault == ValidationError("language")
  {
    if |language| >= 2 then Ok(RequestCodeInput(phoneNumberId, codeMethod, language))
    else Err(ValidationError("language"))
  }

  datatype VerifyCodeInput = VerifyCodeInput(phoneNumberId: string, code: string)

  datatype RegisterInput = RegisterInput(phoneNumberId: string, pin: string, dataLocalizationRegion: Option<string>)

  datatype DeregisterInput = DeregisterInput(phoneNumberId: string)

  datatype UpdateBusinessProfileInput = UpdateBusinessProfileInput(
    phoneNumberId: string,
    about: Option<string>,
    address: Option<string>,
    description: Option<string>,
    email: Option<string>,
    profilePictureUrl: Option<string>,
    websites: Option<seq<string>>,
    vertical: Option<string>)

  // ---------------------------------------------------------------------
  // request_code, verify_code, register, deregister
  // ---------------------------------------------------------------------

  function RequestCodeBody(input: RequestCodeInput): Fields {
    [("code_method", JStr(input.codeMethod)), ("language", JStr(input.language))]
  }

  /**
   * A validated code request sends exactly the code method and the
   * language, and the language it sends has at least two characters.
   */
  lemma RequestCodeBodySpec(phoneNumberId: string, codeMethod: string, language: string)
    requires MakeRequestCodeInput(phoneNumberId, codeMethod, language).Ok?
    ensures var body := RequestCodeBody(MakeRequestCodeInput(phoneNumberId, codeMethod, language).value);
      Keys(body) == ["code_method", "language"] &&
      Get(body, "code_method") == Some(JStr(codeMethod)) &&
      Get(body, "language") == Some(JStr(language)) && |language| >= 2
  {
    var body := RequestCodeBody(RequestCodeInput(phoneNumberId, codeMethod, language));
    GetFirst(body, 0);
    GetFirst(body, 1);
  }

  /** `request_code(input)`. */
  method RequestCode(client: WhatsAppClient, input: RequestCodeInput) returns (r: Outcome<Json>)
    modifies client.http
    ensures client.http.closed == old(client.http.closed)
    ensures client.http.calls == old(client.http.calls) +
      [client.RequestCall("POST", input.phoneNumberId + "/request_code", Some(JObj(RequestCodeBody(input))), None, None, None, [])]
    ensures r == Finish(client.LastResponse(), client.parseJson)
  {
    r := client.Post(input.phoneNumberId + "/request_code", Some(JObj(RequestCodeBody(input))), None, None);
  }

  /** `verify_code(input)`: the body is the code alone. */
  method VerifyCode(client: WhatsAppClient, input: VerifyCodeInput) returns (r: Outcome<Json>)
    modifies client.http
    ensures client.http.closed == old(client.http.closed)
    ensures client.http.calls == old(client.http.calls) +
      [client.RequestCall("POST", input.phoneNumberId + "/verify_code", Some(JObj([("code", JStr(input.code))])), None, None, None, [])]
    ensures r == Finish(client.LastResponse(), client.parseJson)
  {
    r := client.Post(input.phoneNumberId + "/verify_code", Some(JObj([("code", JStr(input.code))])), None, None);
  }

  function RegisterFixed(input: RegisterInput): Fields {
    [("messaging_product", JStr("whatsapp")), ("pin", JStr(input.pin))]
  }

  /**
   * The body of `register`: always the messaging product "whatsapp" and the
   * pin, and the data localization region only when it is non-empty.
   */
  function RegisterBody(input: RegisterInput): (r: Fields)
    ensures Get(r, "messaging_product") == Some(JStr("whatsapp"))
    ensures Get(r, "pin") == Some(JStr(input.pin))
    ensures Get(r, "data_localization_region") == StrIfGiven(input.dataLocalizationRegion)
  {
    var tail := Entry(("data_localization_region", StrIfGiven(input.dataLocalizationRegion)));
    var body := RegisterFixed(input) + tail;
    GetFirst(body, 0);
    GetFirst(body, 1);
    GetAbsent(RegisterFixed(input), "data_localization_region");
    GetAppend(RegisterFixed(input), tail, "data_localization_region");
    assert Get(tail, "data_localization_region") == StrIfGiven(input.dataLocalizationRegion) by {
      if Given(input.dataLocalizationRegion) {
        GetConsHead("data_localization_region", JStr(input.dataLocalizationRegion.value), []);
      }
    }
    body
  }

  /** The dict literal and the conditional assignment of `register`. */
  method BuildRegisterBody(input: RegisterInput) returns (body: Fields)
    ensures body == RegisterBody(input)
  {
    body := RegisterFixed(input);
    body := PutIfPresent(body, "data_localization_region", StrIfGiven(input.dataLocalizationRegion));
  }

  /** `register(input)`. */
  method Register(client: WhatsAppClient, input: RegisterInput) returns (r: Outcome<Json>)
    modifies client.http
    ensures client.http.closed == old(client.http.closed)
    ensures client.http.calls == old(client.http.calls) +
      [client.RequestCall("POST", input.phoneNumberId + "/register", Some(JObj(RegisterBody(input))), None, None, None, [])]
    ensures r == Finish(client.LastResponse(), client.parseJson)
  {
    var body := BuildRegisterBody(input);
    r := client.Post(input.phoneNumberId + "/register", Some(JObj(body)), None, None);
  }

  /** `deregister(input)`: an empty JSON object is posted. */
  method Deregister(client: WhatsAppClient, input: DeregisterInput) returns (r: Outcome<Json>)
    modifies client.http
    ensures client.http.closed == old(client.http.closed)
    ensures client.http.calls == old(client.http.calls) +
      [client.RequestCall("POST", input.phoneNumberId + "/deregister", Some(JObj([])), None, None, None, [])]
    ensures r == Finish(client.LastResponse(), client.parseJson)
  {
    r := client.Post(input.phoneNumberId + "/deregister", Some(JObj([])), None, None);
  }

  // ---------------------------------------------------------------------
  // The business profile
  // ---------------------------------------------------------------------

  const ProfileFieldsParam: string := "about,address,description,email,profile_picture_url,websites,vertical"

  function ProfilePath(phoneNumberId: string): string {
    phoneNumberId + "/whatsapp_business_profile"
  }

  /** `business_profile.get(phone_number_id)`. */
  method GetProfile<T>(client: WhatsAppClient, phoneNumberId: string, validate: Json -> Result<T>) returns (r: Outcome<T>)
    modifies client.http
    ensures client.http.closed == old(client.http.closed)
    ensures client.http.calls == old(client.http.calls) +
      [client.RequestCall("GET", ProfilePath(phoneNumberId), None, Some(JObj([("fields", JStr(ProfileFieldsParam))])), None, None, [])]
    ensures r == Validated(Finish(client.LastResponse(), client.parseJson), validate)
  {
    var resp := client.Get(ProfilePath(phoneNumberId), Some(JObj([("fields", JStr(ProfileFieldsParam))])));
    r := Validated(resp, validate);
  }

  /** `model_dump(exclude={"phone_number_id"}, exclude_none=True)`: every field that is not `None`, in declaration order. */
  function ProfileEntries(input: UpdateBusinessProfileInput): seq<(string, Option<Json>)> {
    [("about", if input.about.Some? then Some(JStr(input.about.value)) else None),
     ("address", if input.address.Some? then Some(JStr(input.address.value)) else None),
     ("description", if input.description.Some? then Some(JStr(input.description.value)) else None),
     ("email", if input.email.Some? then Some(JStr(input.email.value)) else None),
     ("profile_picture_url", if input.profilePictureUrl.Some? then Some(JStr(input.profilePictureUrl.value)) else None),
     ("websites", if input.websites.Some? then
        Some(JArr(seq(|input.websites.value|, i requires 0 <= i < |input.websites.value| => JStr(input.websites.value[i]))))
      else None),
     ("vertical", if input.vertical.Some? then Some(JStr(input.vertical.value)) else None)]
  }

  lemma ProfileEntriesDistinct(input: UpdateBusinessProfileInput)
    ensures DistinctNames(ProfileEntries(input))
  {
  }

  /**
   * The body of the profile update: always the messaging product
   * "whatsapp", never the phone number id, an empty string as given, and
   * nothing that is not a profile field.
   */
  function ProfileBody(input: UpdateBusinessProfileInput): (r: Fields)
    ensures Get(r, "messaging_product") == Some(JStr("whatsapp"))
    ensures Get(r, "phone_number_id") == None
    ensures input.about == Some("") ==> Get(r, "about") == Some(JStr(""))
    ensures forall k :: k !in ProfileBodyKeys ==> Get(r, k) == None
  {
    var es := ProfileEntries(input);
    GetPutAll(Present(es), "messaging_product", JStr("whatsapp"));
    PresentAbsent(es, "phone_number_id");
    ProfileEntriesDistinct(input);
    PresentGet(es, 0);
    assert forall k :: k !in ProfileBodyKeys ==> Get(Present(es), k) == None by {
      forall k | k !in ProfileBodyKeys ensures Get(Present(es), k) == None {
        PresentAbsent(es, k);
      }
    }
    Put(Present(es), "messaging_product", JStr("whatsapp"))
  }

  /** The keys a profile update can carry: the seven profile fields and the messaging product. */
  const ProfileBodyKeys: seq<string> :=
    ["about", "address", "description", "email", "profile_picture_url", "websites", "vertical", "messaging_product"]

  /** `business_profile.update(input)`: the dump, then `body["messaging_product"] = "whatsapp"`. */
  method UpdateProfile(client: WhatsAppClient, input: UpdateBusinessProfileInput) returns (r: Outcome<Json>)
    modifies client.http
    ensures client.http.closed == old(client.http.closed)
    ensures client.http.calls == old(client.http.calls) +
      [client.RequestCall("POST", ProfilePath(input.phoneNumberId), Some(JObj(ProfileBody(input))), None, None, None, [])]
    ensures r == Finish(client.LastResponse(), client.parseJson)
  {
    var body := Present(ProfileEntries(input));
    body := Put(body, "messaging_product", JStr("whatsapp"));
    r := client.Post(ProfilePath(input.phoneNumberId), Some(JObj(body)), None, None);
  }

  /** Each profile field is sent exactly when it is not `None`; an empty string is sent. */
  lemma ProfileFieldSent(input: UpdateBusinessProfileInput, i: nat)
    requires i < |ProfileEntries(input)|
    ensures Get(ProfileBody(input), ProfileEntries(input)[i].0) == ProfileEntries(input)[i].1
  {
    var es := ProfileEntries(input);
    ProfileEntriesDistinct(input);
    PresentGet(es, i);
    GetPut(Present(es), "messaging_product", JStr("whatsapp"), es[i].0);
  }

  // ---------------------------------------------------------------------
  // Settings
  // ---------------------------------------------------------------------

  /** `settings.get(phone_number_id)`. */
  method GetSettings(client: WhatsAppClient, phoneNumberId: string) returns (r: Outcome<Json>)
    modifies client.http
    ensures client.http.closed == old(client.http.closed)
    ensures client.http.calls == old(client.http.calls) +
      [client.RequestCall("GET", phoneNumberId + "/settings", None, None, None, None, [])]
    ensures r == Finish(client.LastResponse(), client.parseJson)
  {
    r := client.Get(phoneNumberId + "/settings", None);
  }

  /** `settings.update(phone_number_id, **settings)`: the keyword arguments are the body. */
  method UpdateSettings(client: WhatsAppClient, phoneNumberId: string, settings: Fields) returns (r: Outcome<Json>)
    modifies client.http
    ensures client.http.closed == old(client.http.closed)
    ensures client.http.calls == old(client.http.calls) +
      [client.RequestCall("POST", phoneNumberId + "/settings", Some(JObj(settings)), None, None, None, [])]
    ensures r == Finish(client.LastResponse(), client.parseJson)
  {
    r := client.Post(phoneNumberId + "/settings", Some(JObj(settings)), None, None);
  }
}
