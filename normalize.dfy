/**
 * `normalize_webhook` (webhooks/normalize.py): flattens the nested
 * `entry[].changes[].value` layout of a webhook delivery into top-level
 * lists of contacts, messages and statuses, with every key in snake_case.
 * Changes whose `field` is not `"messages"` are kept, converted, under
 * `raw[field]`. The first exception raised anywhere ends the call.
 *
 * The specification is a left fold over the entries and, inside each, over
 * the changes; `NormalizeWebhook` is the loop the source runs, proved equal
 * to it.
 */
module Normalize {
  import opened Wrappers
  import opened JsonValues
  import opened CaseDeep
  import opened Types
  import CaseDeepProps

  // ---------------------------------------------------------------------
  // A loop that stops at the first exception
  // ---------------------------------------------------------------------

  /** `for x in xs: s = step(s, x)`, where a step may raise. */
  function Fold<S(!new), X>(s: S, xs: seq<X>, step: (S, X) -> Result<S>): (r: Result<S>)
    ensures |xs| == 0 ==> r == Ok(s)
    ensures r.Err? ==> exists t, x :: x in xs && step(t, x) == Err(r.fault)
    decreases |xs|
  {
    if |xs| == 0 then Ok(s)
    else
      var last := xs[|xs| - 1];
      assert last in xs;
      assert forall x :: x in xs[..|xs| - 1] ==> x in xs;
      match Fold(s, xs[..|xs| - 1], step)
      case Ok(t) => step(t, last)
      case Err(f) => Err(f)
  }

  /** One more iteration of the loop. */
  lemma FoldStep<S(!new), X>(s: S, xs: seq<X>, i: nat, step: (S, X) -> Result<S>, t: S)
    requires i < |xs|
    requires Fold(s, xs[..i], step) == Ok(t)
    ensures Fold(s, xs[..i + 1], step) == step(t, xs[i])
  {
    assert xs[..i + 1][..i] == xs[..i];
  }

  /** One more iteration either extends the loop or ends it with its exception. */
  lemma FoldNext<S(!new), X>(s: S, xs: seq<X>, i: nat, step: (S, X) -> Result<S>, t: S)
    requires i < |xs|
    requires Fold(s, xs[..i], step) == Ok(t)
    ensures step(t, xs[i]).Ok? ==> Fold(s, xs[..i + 1], step) == Ok(step(t, xs[i]).value)
    ensures step(t, xs[i]).Err? ==> Fold(s, xs, step) == Err(step(t, xs[i]).fault)
  {
    FoldStep(s, xs, i, step, t);
    if step(t, xs[i]).Err? {
      FoldFailsAt(s, xs, i, step, t, step(t, xs[i]).fault);
    }
  }

  /** Once the loop has raised, the remaining items are never looked at. */
  lemma {:induction false} FoldStops<S(!new), X>(s: S, xs: seq<X>, k: nat, step: (S, X) -> Result<S>)
    requires k <= |xs|
    requires Fold(s, xs[..k], step).Err?
    ensures Fold(s, xs, step) == Fold(s, xs[..k], step)
    decreases |xs| - k
  {
    if k < |xs| {
      assert xs[..k + 1][..k] == xs[..k];
      FoldStops(s, xs, k + 1, step);
    } else {
      assert xs[..k] == xs;
    }
  }

  /** The exception raised by item `i` is the exception of the whole loop. */
  lemma FoldFailsAt<S(!new), X>(s: S, xs: seq<X>, i: nat, step: (S, X) -> Result<S>, t: S, f: Fault)
    requires i < |xs|
    requires Fold(s, xs[..i], step) == Ok(t)
    requires step(t, xs[i]) == Err(f)
    ensures Fold(s, xs, step) == Err(f)
  {
    FoldStep(s, xs, i, step, t);
    FoldStops(s, xs, i + 1, step);
  }

  /** Running the loop over `a + b` is running it over `a`, then over `b`. */
  lemma {:induction false} FoldAppend<S(!new), X>(s: S, a: seq<X>, b: seq<X>, step: (S, X) -> Result<S>)
    ensures Fold(s, a + b, step) ==
      match Fold(s, a, step)
      case Ok(t) => Fold(t, b, step)
      case Err(f) => Err(f)
    decreases |b|
  {
    if |b| == 0 {
      assert a + b == a;
    } else {
      var ab := a + b;
      assert ab[..|ab| - 1] == a + b[..|b| - 1];
      FoldAppend(s, a, b[..|b| - 1], step);
    }
  }

  /** A property every successful step keeps holds after the whole loop. */
  lemma {:induction false} FoldKeeps<S(!new), X>(s: S, xs: seq<X>, step: (S, X) -> Result<S>, P: S -> bool)
    requires P(s)
    requires forall t, x :: P(t) && step(t, x).Ok? ==> P(step(t, x).value)
    ensures Fold(s, xs, step).Ok? ==> P(Fold(s, xs, step).value)
    decreases |xs|
  {
    if |xs| > 0 {
      FoldKeeps(s, xs[..|xs| - 1], step, P);
    }
  }

  /** The exceptions `normalize_webhook` can raise. */
  predicate NormalizeFault(f: Fault) {
    f == AttributeError || f == TypeError || f.ValidationError?
  }

  // ---------------------------------------------------------------------
  // The pieces of one change
  // ---------------------------------------------------------------------

  /**
   * The local variables of `normalize_webhook`: the phone number id and
   * display number as read from the metadata (any JSON value until the
   * final model checks them), the three lists, and `raw`. Keys of `raw`
   * that are not strings are only remembered as having occurred, since the
   * final model rejects them.
   */
  datatype NormState = NormState(
    pid: Json, display: Json,
    contacts: seq<Json>, messages: seq<WebhookMessage>, statuses: seq<MessageStatusUpdate>,
    raw: seq<(string, seq<Json>)>, rawKeysAreStrings: bool)

  const Start := NormState(JNull, JNull, [], [], [], [], true)

  /** The list stored under `k` in `raw`, or `[]`. */
  function RawGet(raw: seq<(string, seq<Json>)>, k: string): seq<Json> {
    if |raw| == 0 then []
    else if raw[0].0 == k then raw[0].1
    else RawGet(raw[1..], k)
  }

  function RawKeys(raw: seq<(string, seq<Json>)>): seq<string> {
    seq(|raw|, i requires 0 <= i < |raw| => raw[i].0)
  }

  /** `raw.setdefault(k, []).append(v)`. */
  function RawAdd(raw: seq<(string, seq<Json>)>, k: string, v: Json): (r: seq<(string, seq<Json>)>)
  {
    if |raw| == 0 then [(k, [v])]
    else if raw[0].0 == k then [(k, raw[0].1 + [v])] + raw[1..]
    else [raw[0]] + RawAdd(raw[1..], k, v)
  }

  /**
   * `setdefault` then `append`: only the list under `k` changes, by one
   * item at its end; a new key goes last and keys never repeat.
   */
  lemma RawAddSpec(raw: seq<(string, seq<Json>)>, k: string, v: Json, k': string)
    ensures RawGet(RawAdd(raw, k, v), k') == if k' == k then RawGet(raw, k) + [v] else RawGet(raw, k')
    ensures RawKeys(RawAdd(raw, k, v)) == if k in RawKeys(raw) then RawKeys(raw) else RawKeys(raw) + [k]
  {
    RawAddGet(raw, k, v, k');
    RawAddKeys(raw, k, v);
  }

  lemma {:induction false} RawAddGet(raw: seq<(string, seq<Json>)>, k: string, v: Json, k': string)
    ensures RawGet(RawAdd(raw, k, v), k') == if k' == k then RawGet(raw, k) + [v] else RawGet(raw, k')
  {
    if |raw| > 0 && raw[0].0 != k {
      RawAddGet(raw[1..], k, v, k');
      var r := RawAdd(raw, k, v);
      assert r[0] == raw[0] && r[1..] == RawAdd(raw[1..], k, v);
    }
  }

  lemma {:induction false} RawAddKeys(raw: seq<(string, seq<Json>)>, k: string, v: Json)
    ensures RawKeys(RawAdd(raw, k, v)) == if k in RawKeys(raw) then RawKeys(raw) else RawKeys(raw) + [k]
  {
    if |raw| > 0 && raw[0].0 != k {
      RawAddKeys(raw[1..], k, v);
      assert RawKeys(raw) == [raw[0].0] + RawKeys(raw[1..]);
      assert RawKeys(RawAdd(raw, k, v)) == [raw[0].0] + RawKeys(RawAdd(raw[1..], k, v));
    } else if |raw| > 0 {
      assert RawKeys(raw) == [k] + RawKeys(raw[1..]);
      assert RawKeys(RawAdd(raw, k, v)) == [k] + RawKeys(raw[1..]);
    }
  }

  /**
   * `raw.setdefault(field, []).append(value)` for any JSON `field`: lists
   * and dicts are unhashable; a hashable key other than a string is
   * accepted here and rejected by the final model.
   */
  function RecordRaw(st: NormState, field: Json, value: Json): (r: Result<NormState>)
    ensures r.Err? <==> field.JArr? || field.JObj?
    ensures r.Err? ==> r.fault == TypeError
  {
    match field
    case JArr(_) => Err(TypeError)
    case JObj(_) => Err(TypeError)
    case JStr(k) => Ok(st.(raw := RawAdd(st.raw, k, value)))
    case _ => Ok(st.(rawKeysAreStrings := false))
  }

  /** Python's `needle in x`: a dict key, a list item, a substring; anything else raises TypeError. */
  function PyIn(needle: string, x: Json): (r: Result<bool>)
    ensures r.Err? <==> !(x.JObj? || x.JArr? || x.JStr?)
    ensures r.Err? ==> r.fault == TypeError
    ensures x.JObj? ==> r == Ok(needle in Keys(x.fields))
    ensures x.JArr? ==> r == Ok(JStr(needle) in x.items)
  {
    match x
    case JObj(f) => Ok(needle in Keys(f))
    case JArr(items) => Ok(JStr(needle) in items)
    case JStr(s) => Ok(Substring(needle, s))
    case _ => Err(TypeError)
  }

  /** `needle` occurs in `s` at some position. */
  predicate Substring(needle: string, s: string) {
    |needle| <= |s| && (s[..|needle|] == needle || Substring(needle, s[1..]))
  }

  /**
   * The direction fix: when `"from" in normalized`, the `from` entry is
   * popped and stored under `from_` unless `from_` is already there. A list
   * holding `"from"` or a string containing it has no `setdefault`.
   */
  function RenameFrom(n: Json): (r: Result<Json>)
    ensures r.Err? ==> !n.JObj? && (r.fault == AttributeError || r.fault == TypeError)
    ensures r.Ok? && !n.JObj? ==> r.value == n
  {
    var has :- PyIn("from", n);
    if !has then Ok(n)
    else if !n.JObj? then Err(AttributeError)
    else
      var popped := GetOr(n.fields, "from", JNull);
      var rest := Remove(n.fields, "from");
      Ok(JObj(if Get(rest, "from_").Some? then rest else Put(rest, "from_", popped)))
  }

  /** One message of a `messages` change: converted, renamed, validated, appended. */
  function AddMessage(ms: seq<WebhookMessage>, m: Json): (r: Result<seq<WebhookMessage>>)
    ensures r.Ok? ==> |r.value| == |ms| + 1 && r.value[..|ms|] == ms
    ensures r.Ok? <==> RenameFrom(ToSnakeDeep(m)).Ok? && ValidateWebhookMessage(RenameFrom(ToSnakeDeep(m)).value).Ok?
    ensures r.Ok? ==> r.value == ms + [ValidateWebhookMessage(RenameFrom(ToSnakeDeep(m)).value).value]
    ensures RenameFrom(ToSnakeDeep(m)).Err? ==> r == Err(RenameFrom(ToSnakeDeep(m)).fault)
    ensures RenameFrom(ToSnakeDeep(m)).Ok? && ValidateWebhookMessage(RenameFrom(ToSnakeDeep(m)).value).Err? ==>
      r == Err(ValidateWebhookMessage(RenameFrom(ToSnakeDeep(m)).value).fault)
    ensures r.Err? ==> NormalizeFault(r.fault)
  {
    var n :- RenameFrom(ToSnakeDeep(m));
    var w :- ValidateWebhookMessage(n);
    Ok(ms + [w])
  }

  /** One status of a `messages` change: converted, validated, appended. */
  function AddStatus(ss: seq<MessageStatusUpdate>, s: Json): (r: Result<seq<MessageStatusUpdate>>)
    ensures r.Ok? ==> |r.value| == |ss| + 1 && r.value[..|ss|] == ss
    ensures r.Ok? <==> ValidateStatusUpdate(ToSnakeDeep(s)).Ok?
    ensures r.Ok? ==> r.value == ss + [ValidateStatusUpdate(ToSnakeDeep(s)).value]
    ensures r.Err? ==> r.fault == ValidateStatusUpdate(ToSnakeDeep(s)).fault
    ensures r.Err? ==> NormalizeFault(r.fault)
  {
    var u :- ValidateStatusUpdate(ToSnakeDeep(s));
    Ok(ss + [u])
  }

  /** `to_snake_deep` of every item. */
  function SnakeAll(cs: seq<Json>): (r: seq<Json>)
    ensures |r| == |cs| && forall i :: 0 <= i < |cs| ==> r[i] == ToSnakeDeep(cs[i])
  {
    seq(|cs|, i requires 0 <= i < |cs| => ToSnakeDeep(cs[i]))
  }

  /** `contacts.extend(to_snake_deep(c) for c in cs)`: the stored ones stay, each new one is converted. */
  function AppendContacts(cs0: seq<Json>, cs: seq<Json>): (r: seq<Json>)
    ensures |r| == |cs0| + |cs| && r[..|cs0|] == cs0
    ensures forall i :: 0 <= i < |cs| ==> r[|cs0| + i] == ToSnakeDeep(cs[i])
    ensures forall i :: |cs0| <= i < |r| ==> exists c :: r[i] == ToSnakeDeep(c)
  {
    var r := cs0 + SnakeAll(cs);
    assert forall i :: |cs0| <= i < |r| ==> r[i] == ToSnakeDeep(cs[i - |cs0|]);
    r
  }

  /** The metadata lookup, done only while no truthy phone number id has been seen. */
  function TakeMetadata(st: NormState, metadata: Json): (r: Result<NormState>)
    ensures Truthy(st.pid) ==> r == Ok(st)
    ensures r.Err? <==> !Truthy(st.pid) && !metadata.JObj?
    ensures r.Err? ==> r.fault == AttributeError
    ensures r.Ok? ==>
      r.value.contacts == st.contacts && r.value.messages == st.messages &&
      r.value.statuses == st.statuses && r.value.raw == st.raw && r.value.rawKeysAreStrings == st.rawKeysAreStrings
  {
    if Truthy(st.pid) then Ok(st)
    else
      var md :- AsDict(metadata);
      Ok(st.(pid := GetOr(md, "phone_number_id", JNull), display := GetOr(md, "display_phone_number", JNull)))
  }

  /** The body of the inner loop, for one change. */
  function ProcessChange(st: NormState, change: Json): (r: Result<NormState>)
    ensures !change.JObj? ==> r == Err(AttributeError)
    ensures r.Err? ==> NormalizeFault(r.fault)
  {
    var c :- AsDict(change);
    var value := GetOr(c, "value", JObj([]));
    var field := GetOr(c, "field", JStr(""));
    if field != JStr("messages") then RecordRaw(st, field, ToSnakeDeep(value))
    else
      var v :- AsDict(value);
      ProcessMessages(st, v)
  }

  /** `v.get(key, [])`, iterated. */
  function ListIn(v: Fields, key: string): (r: Result<seq<Json>>)
    ensures GetOr(v, key, JArr([])).JArr? ==> r == Ok(GetOr(v, key, JArr([])).items)
    ensures r.Err? ==> r.fault == TypeError
  {
    Iterate(GetOr(v, key, JArr([])))
  }

  /**
   * A "messages" change whose value is the dict `v`: the metadata, then the
   * contacts, each message and each status in order; the first exception
   * ends the change.
   */
  function ProcessMessages(st: NormState, v: Fields): (r: Result<NormState>)
    ensures r.Ok? ==> r.value.raw == st.raw && r.value.rawKeysAreStrings == st.rawKeysAreStrings
    ensures var cs, ms, ss := ListIn(v, "contacts"), ListIn(v, "messages"), ListIn(v, "statuses");
      r.Ok? ==> (cs.Ok? && ms.Ok? && ss.Ok? &&
        r.value.contacts == AppendContacts(st.contacts, cs.value) &&
        Fold(st.messages, ms.value, AddMessage) == Ok(r.value.messages) &&
        Fold(st.statuses, ss.value, AddStatus) == Ok(r.value.statuses))
    ensures var md, cs, ms := TakeMetadata(st, GetOr(v, "metadata", JObj([]))), ListIn(v, "contacts"), ListIn(v, "messages");
      md.Ok? && cs.Ok? && ms.Ok? && Fold(st.messages, ms.value, AddMessage).Err? ==>
        r == Err(Fold(st.messages, ms.value, AddMessage).fault)
    ensures var md, cs, ms := TakeMetadata(st, GetOr(v, "metadata", JObj([]))), ListIn(v, "contacts"), ListIn(v, "messages");
      var ss := ListIn(v, "statuses");
      md.Ok? && cs.Ok? && ms.Ok? && Fold(st.messages, ms.value, AddMessage).Ok? &&
      ss.Ok? && Fold(st.statuses, ss.value, AddStatus).Err? ==>
        r == Err(Fold(st.statuses, ss.value, AddStatus).fault)
    ensures r.Err? ==> NormalizeFault(r.fault)
  {
      var st1 :- TakeMetadata(st, GetOr(v, "metadata", JObj([])));
      var cs :- ListIn(v, "contacts");
      var ms :- ListIn(v, "messages");
      var messages :- Fold(st1.messages, ms, AddMessage);
      var ss :- ListIn(v, "statuses");
      var statuses :- Fold(st1.statuses, ss, AddStatus);
      Ok(st1.(contacts := AppendContacts(st1.contacts, cs), messages := messages, statuses := statuses))
  }

  /** The body of the outer loop, for one entry. */
  function ProcessEntry(st: NormState, entry: Json): (r: Result<NormState>)
    ensures !entry.JObj? ==> r == Err(AttributeError)
    ensures entry.JObj? && ListIn(entry.fields, "changes").Ok? ==>
      r == Fold(st, ListIn(entry.fields, "changes").value, ProcessChange)
    ensures r.Err? ==> NormalizeFault(r.fault)
  {
    var e :- AsDict(entry);
    var changes :- ListIn(e, "changes");
    Fold(st, changes, ProcessChange)
  }

  /** `normalize_webhook(payload)`. */
  function NormalizeSpec(payload: Json): (r: Result<NormalizedWebhook>)
    ensures !payload.JObj? ==> r == Ok(EmptyWebhook)
    ensures payload.JObj? ==>
      var entries := ListIn(payload.fields, "entry");
      (r.Ok? ==> entries.Ok? && Fold(Start, entries.value, ProcessEntry).Ok?) &&
      (entries.Ok? && Fold(Start, entries.value, ProcessEntry).Err? ==>
        r == Err(Fold(Start, entries.value, ProcessEntry).fault))
    ensures (payload.JObj? && ListIn(payload.fields, "entry").Ok? &&
             Fold(Start, ListIn(payload.fields, "entry").value, ProcessEntry).Ok?) ==>
      var st := Fold(Start, ListIn(payload.fields, "entry").value, ProcessEntry).value;
      var obj := GetOr(payload.fields, "object", JNull);
      (r.Ok? <==>
        (obj.JNull? || obj.JStr?) && (st.pid.JNull? || st.pid.JStr?) && (st.display.JNull? || st.display.JStr?) &&
        ValidateItems(st.contacts, DictValue).Ok? && st.rawKeysAreStrings && RawLists(st.raw).Ok?) &&
      (r.Ok? ==>
        r.value.obj == AsStr(obj) &&
        r.value.phoneNumberId == AsStr(st.pid) && r.value.displayPhoneNumber == AsStr(st.display) &&
        r.value.contacts == ValidateItems(st.contacts, DictValue).value &&
        r.value.messages == st.messages && r.value.statuses == st.statuses &&
        r.value.raw == RawLists(st.raw).value)
    ensures r.Err? ==> NormalizeFault(r.fault)
  {
    if !payload.JObj? then Ok(EmptyWebhook)
    else
      var d := payload.fields;
      var entries :- ListIn(d, "entry");
      var st :- Fold(Start, entries, ProcessEntry);
      NewNormalizedWebhook(GetOr(d, "object", JNull), st.pid, st.display, st.contacts,
        st.messages, st.statuses, st.raw, st.rawKeysAreStrings)
  }

  // ---------------------------------------------------------------------
  // The loops
  // ---------------------------------------------------------------------

  /** The body of the message loop: convert, rename `from`, validate, append. */
  method AppendMessage(ms: seq<WebhookMessage>, item: Json) returns (r: Result<seq<WebhookMessage>>)
    ensures r == AddMessage(ms, item)
  {
    var normalized := ToSnakeDeep(item);
    var renamed := RenameFrom(normalized);
    if renamed.Err? {
      return Err(renamed.fault);
    }
    var w := ValidateWebhookMessage(renamed.value);
    if w.Err? {
      return Err(w.fault);
    }
    r := Ok(ms + [w.value]);
  }

  /** The inner loop over the messages of one change. */
  method AddMessages(ms0: seq<WebhookMessage>, items: seq<Json>) returns (r: Result<seq<WebhookMessage>>)
    ensures r == Fold(ms0, items, AddMessage)
  {
    var ms := ms0;
    var k := 0;
    assert items[..k] == [];
    while k < |items|
      invariant 0 <= k <= |items|
      invariant Fold(ms0, items[..k], AddMessage) == Ok(ms)
    {
      FoldNext(ms0, items, k, AddMessage, ms);
      var next := AppendMessage(ms, items[k]);
      if next.Err? {
        return Err(next.fault);
      }
      ms := next.value;
      k := k + 1;
    }
    assert items[..k] == items;
    return Ok(ms);
  }

  /** The body of the status loop: convert, validate, append. */
  method AppendStatus(ss: seq<MessageStatusUpdate>, item: Json) returns (r: Result<seq<MessageStatusUpdate>>)
    ensures r == AddStatus(ss, item)
  {
    var normalized := ToSnakeDeep(item);
    var u := ValidateStatusUpdate(normalized);
    if u.Err? {
      return Err(u.fault);
    }
    r := Ok(ss + [u.value]);
  }

  /** The inner loop over the statuses of one change. */
  method AddStatuses(ss0: seq<MessageStatusUpdate>, items: seq<Json>) returns (r: Result<seq<MessageStatusUpdate>>)
    ensures r == Fold(ss0, items, AddStatus)
  {
    var ss := ss0;
    var k := 0;
    assert items[..k] == [];
    while k < |items|
      invariant 0 <= k <= |items|
      invariant Fold(ss0, items[..k], AddStatus) == Ok(ss)
    {
      FoldNext(ss0, items, k, AddStatus, ss);
      var next := AppendStatus(ss, items[k]);
      if next.Err? {
        return Err(next.fault);
      }
      ss := next.value;
      k := k + 1;
    }
    assert items[..k] == items;
    return Ok(ss);
  }

  /** The inner loop over the contacts of one change. */
  method AddContacts(cs0: seq<Json>, items: seq<Json>) returns (cs: seq<Json>)
    ensures cs == AppendContacts(cs0, items)
  {
    cs := cs0;
    var k := 0;
    while k < |items|
      invariant 0 <= k <= |items|
      invariant cs == cs0 + SnakeAll(items[..k])
    {
      assert SnakeAll(items[..k + 1]) == SnakeAll(items[..k]) + [ToSnakeDeep(items[k])];
      cs := cs + [ToSnakeDeep(items[k])];
      k := k + 1;
    }
    assert items[..k] == items;
  }

  /** The body of the change loop. */
  method ApplyChange(st: NormState, change: Json) returns (r: Result<NormState>)
    ensures r == ProcessChange(st, change)
  {
    var c :- AsDict(change);
    var value := GetOr(c, "value", JObj([]));
    var field := GetOr(c, "field", JStr(""));
    if field != JStr("messages") {
      return RecordRaw(st, field, ToSnakeDeep(value));
    }
    var v :- AsDict(value);
    var metadata := GetOr(v, "metadata", JObj([]));
    var next := st;
    if !Truthy(st.pid) {
      var md :- AsDict(metadata);
      next := next.(pid := GetOr(md, "phone_number_id", JNull), display := GetOr(md, "display_phone_number", JNull));
    }
    assert TakeMetadata(st, metadata) == Ok(next);
    var cs :- Iterate(GetOr(v, "contacts", JArr([])));
    var contacts := AddContacts(next.contacts, cs);
    var ms :- Iterate(GetOr(v, "messages", JArr([])));
    var messages :- AddMessages(next.messages, ms);
    var ss :- Iterate(GetOr(v, "statuses", JArr([])));
    var statuses :- AddStatuses(next.statuses, ss);
    return Ok(next.(contacts := contacts, messages := messages, statuses := statuses));
  }

  /** `normalize_webhook(payload)`, as the nested loops of the source. */
  method NormalizeWebhook(payload: Json) returns (r: Result<NormalizedWebhook>)
    ensures r == NormalizeSpec(payload)
  {
    if !payload.JObj? {
      return Ok(EmptyWebhook);
    }
    var d := payload.fields;
    var obj := GetOr(d, "object", JNull);
    var entries :- Iterate(GetOr(d, "entry", JArr([])));
    var st := Start;
    var i := 0;
    while i < |entries|
      invariant 0 <= i <= |entries|
      invariant Fold(Start, entries[..i], ProcessEntry) == Ok(st)
    {
      FoldStep(Start, entries, i, ProcessEntry, st);
      var e := AsDict(entries[i]);
      if e.Err? {
        FoldFailsAt(Start, entries, i, ProcessEntry, st, e.fault);
        return Err(e.fault);
      }
      var changes := Iterate(GetOr(e.value, "changes", JArr([])));
      if changes.Err? {
        FoldFailsAt(Start, entries, i, ProcessEntry, st, changes.fault);
        return Err(changes.fault);
      }
      ghost var st0 := st;
      assert ProcessEntry(st0, entries[i]) == Fold(st0, changes.value, ProcessChange);
      var j := 0;
      while j < |changes.value|
        invariant 0 <= j <= |changes.value|
        invariant Fold(st0, changes.value[..j], ProcessChange) == Ok(st)
      {
        FoldStep(st0, changes.value, j, ProcessChange, st);
        var next := ApplyChange(st, changes.value[j]);
        if next.Err? {
          FoldFailsAt(st0, changes.value, j, ProcessChange, st, next.fault);
          FoldFailsAt(Start, entries, i, ProcessEntry, st0, next.fault);
          return Err(next.fault);
        }
        st := next.value;
        j := j + 1;
      }
      assert changes.value[..j] == changes.value;
      i := i + 1;
    }
    assert entries[..i] == entries;
    return NewNormalizedWebhook(obj, st.pid, st.display, st.contacts, st.messages, st.statuses,
      st.raw, st.rawKeysAreStrings);
  }
}
