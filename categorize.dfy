/**
 * Graph API error codes grouped into categories (errors/categorize.py).
 */
module Categorize {
  import opened Wrappers

  datatype ErrorCategory =
    | Authorization
    | Permission
    | Parameter
    | Throttling
    | Template
    | Media
    | PhoneRegistration
    | Integrity
    | BusinessEligibility
    | ReengagementWindow
    | WabaConfig
    | Flow
    | Synchronization
    | Server
    | Unknown

  /** The category's wire name, as it appears in `to_dict`. */
  function CategoryName(c: ErrorCategory): string {
    match c
    case Authorization => "authorization"
    case Permission => "permission"
    case Parameter => "parameter"
    case Throttling => "throttling"
    case Template => "template"
    case Media => "media"
    case PhoneRegistration => "phone_registration"
    case Integrity => "integrity"
    case BusinessEligibility => "business_eligibility"
    case ReengagementWindow => "reengagement_window"
    case WabaConfig => "waba_config"
    case Flow => "flow"
    case Synchronization => "synchronization"
    case Server => "server"
    case Unknown => "unknown"
  }

  /** Reads a wire name back; every other string is not a category. */
  function ParseCategory(s: string): (r: Option<ErrorCategory>)
    ensures r.Some? ==> CategoryName(r.value) == s
  {
    if s == "authorization" then Some(Authorization)
    else if s == "permission" then Some(Permission)
    else if s == "parameter" then Some(Parameter)
    else if s == "throttling" then Some(Throttling)
    else if s == "template" then Some(Template)
    else if s == "media" then Some(Media)
    else if s == "phone_registration" then Some(PhoneRegistration)
    else if s == "integrity" then Some(Integrity)
    else if s == "business_eligibility" then Some(BusinessEligibility)
    else if s == "reengagement_window" then Some(ReengagementWindow)
    else if s == "waba_config" then Some(WabaConfig)
    else if s == "flow" then Some(Flow)
    else if s == "synchronization" then Some(Synchronization)
    else if s == "server" then Some(Server)
    else if s == "unknown" then Some(Unknown)
    else None
  }

  /** Every category has its own name, and the name reads back to it. */
  lemma CategoryNameRoundTrip(c: ErrorCategory)
    ensures ParseCategory(CategoryName(c)) == Some(c)
  {
    match c
    case Authorization =>
    case Permission =>
    case Parameter =>
    case Throttling =>
    case Template =>
    case Media =>
    case PhoneRegistration =>
    case Integrity =>
    case BusinessEligibility =>
    case ReengagementWindow =>
    case WabaConfig =>
    case Flow =>
    case Synchronization =>
    case Server =>
    case Unknown =>
  }

  /**
   * `_CODE_TO_CATEGORY`: 43 codes in ten categories; `None` for a code not
   * in the table. The table never yields server, unknown or the three
   * categories the module declares but does not use.
   */
  function CodeToCategory(code: int): (r: Option<ErrorCategory>)
    ensures r.Some? <==> code in TableCodes
    ensures r.Some? ==> r.value !in {Server, Unknown, BusinessEligibility, WabaConfig, Synchronization}
  {
    match code
    // Authorization
    case 0 => Some(Authorization)
    case 190 => Some(Authorization)
    // Permission
    case 10 => Some(Permission)
    case 200 => Some(Permission)
    case 299 => Some(Permission)
    // Throttling / rate limit
    case 4 => Some(Throttling)
    case 80007 => Some(Throttling)
    case 130429 => Some(Throttling)
    case 131048 => Some(Throttling)
    case 131056 => Some(Throttling)
    // Parameter
    case 33 => Some(Parameter)
    case 100 => Some(Parameter)
    case 130472 => Some(Parameter)
    case 131008 => Some(Parameter)
    case 131009 => Some(Parameter)
    case 131021 => Some(Parameter)
    case 131026 => Some(Parameter)
    case 135000 => Some(Parameter)
    // Media
    case 131051 => Some(Media)
    case 131052 => Some(Media)
    case 131053 => Some(Media)
    // Template
    case 132000 => Some(Template)
    case 132001 => Some(Template)
    case 132005 => Some(Template)
    case 132007 => Some(Template)
    case 132012 => Some(Template)
    case 132015 => Some(Template)
    case 132016 => Some(Template)
    // Flow
    case 132068 => Some(Flow)
    case 132069 => Some(Flow)
    // Phone registration
    case 133000 => Some(PhoneRegistration)
    case 133004 => Some(PhoneRegistration)
    case 133005 => Some(PhoneRegistration)
    case 133006 => Some(PhoneRegistration)
    case 133008 => Some(PhoneRegistration)
    case 133009 => Some(PhoneRegistration)
    case 133010 => Some(PhoneRegistration)
    case 133015 => Some(PhoneRegistration)
    case 133016 => Some(PhoneRegistration)
    // Re-engagement window
    case 131047 => Some(ReengagementWindow)
    // Integrity
    case 368 => Some(Integrity)
    case 130497 => Some(Integrity)
    case 131031 => Some(Integrity)
    case _ => None
  }

  /** The codes the table knows. */
  const TableCodes: set<int> := {
    0, 190, 10, 200, 299, 4, 80007, 130429, 131048, 131056,
    33, 100, 130472, 131008, 131009, 131021, 131026, 135000,
    131051, 131052, 131053, 132000, 132001, 132005, 132007, 132012, 132015, 132016,
    132068, 132069, 133000, 133004, 133005, 133006, 133008, 133009, 133010, 133015, 133016,
    131047, 368, 130497, 131031
  }

  /**
   * `categorize_error(code, http_status)`: the table decides when it knows
   * the code; otherwise a 5xx status means a server error.
   */
  function CategorizeError(code: Option<int>, httpStatus: Option<int>): (r: ErrorCategory)
    ensures code.Some? && CodeToCategory(code.value).Some? ==> r == CodeToCategory(code.value).value
    ensures r == Server <==>
      !(code.Some? && CodeToCategory(code.value).Some?) && httpStatus.Some? && httpStatus.value >= 500
    ensures r == Unknown <==>
      !(code.Some? && CodeToCategory(code.value).Some?) && !(httpStatus.Some? && httpStatus.value >= 500)
  {
    if code.Some? && CodeToCategory(code.value).Some? then CodeToCategory(code.value).value
    else if httpStatus.Some? && httpStatus.value >= 500 then Server
    else Unknown
  }

  /** A known code decides the category whatever the HTTP status, e.g. (190, 500). */
  lemma StatusIgnoredForKnownCode(code: int, s1: Option<int>, s2: Option<int>)
    requires CodeToCategory(code).Some?
    ensures CategorizeError(Some(code), s1) == CategorizeError(Some(code), s2)
  {
  }

  /** The status matters only through the 5xx test, and only for unknown codes. */
  lemma StatusOnlyThroughFallback(code: Option<int>, s1: Option<int>, s2: Option<int>)
    requires (s1.Some? && s1.value >= 500) == (s2.Some? && s2.value >= 500)
    ensures CategorizeError(code, s1) == CategorizeError(code, s2)
  {
  }

  /** Three categories of the enum are never produced. */
  lemma NeverReturned(code: Option<int>, httpStatus: Option<int>)
    ensures CategorizeError(code, httpStatus) !in {BusinessEligibility, WabaConfig, Synchronization}
  {
  }

  /** Per category, the exact codes of the table. */
  lemma TableByCategory(code: int)
    ensures CodeToCategory(code) == Some(Authorization) <==> code in {0, 190}
    ensures CodeToCategory(code) == Some(Permission) <==> code in {10, 200, 299}
    ensures CodeToCategory(code) == Some(Throttling) <==> code in {4, 80007, 130429, 131048, 131056}
    ensures CodeToCategory(code) == Some(Parameter) <==>
      code in {33, 100, 130472, 131008, 131009, 131021, 131026, 135000}
    ensures CodeToCategory(code) == Some(Media) <==> code in {131051, 131052, 131053}
    ensures CodeToCategory(code) == Some(Template) <==>
      code in {132000, 132001, 132005, 132007, 132012, 132015, 132016}
    ensures CodeToCategory(code) == Some(Flow) <==> code in {132068, 132069}
    ensures CodeToCategory(code) == Some(PhoneRegistration) <==>
      code in {133000, 133004, 133005, 133006, 133008, 133009, 133010, 133015, 133016}
    ensures CodeToCategory(code) == Some(ReengagementWindow) <==> code == 131047
    ensures CodeToCategory(code) == Some(Integrity) <==> code in {368, 130497, 131031}
  {
  }

  /** The fixed examples: (190, 500), (None, 502), (99999, None), (None, 400), (None, None). */
  lemma CategorizeExamples()
    ensures CategorizeError(Some(190), Some(500)) == Authorization
    ensures CategorizeError(Some(130429), None) == Throttling
    ensures CategorizeError(None, Some(502)) == Server
    ensures CategorizeError(Some(99999), None) == Unknown
    ensures CategorizeError(None, Some(400)) == Unknown
    ensures CategorizeError(None, None) == Unknown
  {
  }
}
