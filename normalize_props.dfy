/**
 * What `normalize_webhook` promises about its result: the shape of the
 * empty and malformed cases, where a change of another field goes, the
 * order of the flattened lists, the first phone number id winning, the
 * `from` rename, and that everything it stores is already in snake_case.
 */
module NormalizeProps {
  import opened Wrappers
  import opened JsonValues
  import opened CaseDeep
  import opened Types
  import opened Normalize
  import CaseDeepProps

  /** A payload that is not a dict, or a dict without entries, gives the empty model. */
  lemma EmptyPayloads(payload: Json)
    requires !payload.JObj? || payload == JObj([])
    ensures NormalizeSpec(payload) == Ok(EmptyWebhook)
  {
    if payload.JObj? {
      assert Iterate(JArr([])) == Ok([]);
      assert Fold(Start, [], ProcessEntry) == Ok(Start);
      assert ValidateItems([], DictValue) == Ok([]);
      assert RawLists([]) == Ok([]);
    }
  }

  /** `entry` must be iterable and each entry a dict; otherwise the call raises. */
  lemma MalformedEntries(d: Fields)
    ensures var e := GetOr(d, "entry", JArr([]));
      !(e.JArr? || e.JObj? || e.JStr?) ==> NormalizeSpec(JObj(d)) == Err(TypeError)
    ensures var e := GetOr(d, "entry", JArr([]));
      e.JArr? && |e.items| > 0 && !e.items[0].JObj? ==> NormalizeSpec(JObj(d)) == Err(AttributeError)
  {
    var e := GetOr(d, "entry", JArr([]));
    if e.JArr? && |e.items| > 0 && !e.items[0].JObj? {
      assert Fold(Start, e.items[..0], ProcessEntry) == Ok(Start);
      FoldFailsAt(Start, e.items, 0, ProcessEntry, Start, AttributeError);
    }
  }

  /**
   * A change whose `field` is a string other than `"messages"` only appends
   * its converted `value` to `raw[field]`; the lists and the phone number
   * are untouched.
   */
  lemma OtherFieldGoesToRaw(st: NormState, c: Fields, k: string)
    requires GetOr(c, "field", JStr("")) == JStr(k) && k != "messages"
    ensures ProcessChange(st, JObj(c)).Ok?
    ensures var r := ProcessChange(st, JObj(c)).value;
      r.pid == st.pid && r.display == st.display && r.contacts == st.contacts &&
      r.messages == st.messages && r.statuses == st.statuses &&
      r.rawKeysAreStrings == st.rawKeysAreStrings &&
      RawGet(r.raw, k) == RawGet(st.raw, k) + [ToSnakeDeep(GetOr(c, "value", JObj([])))] &&
      forall k' :: k' != k ==> RawGet(r.raw, k') == RawGet(st.raw, k')
  {
    var v := ToSnakeDeep(GetOr(c, "value", JObj([])));
    assert ProcessChange(st, JObj(c)) == Ok(st.(raw := RawAdd(st.raw, k, v)));
    RawAddSpec(st.raw, k, v, k);
    forall k' | k' != k ensures RawGet(RawAdd(st.raw, k, v), k') == RawGet(st.raw, k') {
      RawAddSpec(st.raw, k, v, k');
    }
  }

  /** A `field` that is a list or a dict cannot be a key of `raw`. */
  lemma UnhashableField(st: NormState, c: Fields)
    requires GetOr(c, "field", JStr("")).JArr? || GetOr(c, "field", JStr("")).JObj?
    ensures ProcessChange(st, JObj(c)) == Err(TypeError)
  {
  }

  /** A `messages` change whose `value` is not a dict raises AttributeError. */
  lemma MessagesValueNotADict(st: NormState, c: Fields)
    requires GetOr(c, "field", JStr("")) == JStr("messages")
    requires !GetOr(c, "value", JObj([])).JObj?
    ensures ProcessChange(st, JObj(c)) == Err(AttributeError)
  {
  }

  // ---------------------------------------------------------------------
  // Order: every list only grows at its end
  // ---------------------------------------------------------------------

  /** The three flattened lists of `b` extend those of `a`. */
  predicate Extends(a: NormState, b: NormState) {
    a.contacts <= b.contacts && a.messages <= b.messages && a.statuses <= b.statuses
  }

  lemma AddMessagesExtend(ms: seq<WebhookMessage>, items: seq<Json>)
    ensures Fold(ms, items, AddMessage).Ok? ==> ms <= Fold(ms, items, AddMessage).value
  {
    FoldKeeps(ms, items, AddMessage, t => ms <= t);
  }

  lemma AddStatusesExtend(ss: seq<MessageStatusUpdate>, items: seq<Json>)
    ensures Fold(ss, items, AddStatus).Ok? ==> ss <= Fold(ss, items, AddStatus).value
  {
    FoldKeeps(ss, items, AddStatus, t => ss <= t);
  }

  /** One change appends to the lists and never reorders or drops what is there. */
  lemma ChangeExtends(st: NormState, change: Json)
    ensures ProcessChange(st, change).Ok? ==> Extends(st, ProcessChange(st, change).value)
  {
    if ProcessChange(st, change).Ok? && GetOr(change.fields, "field", JStr("")) == JStr("messages") {
      var v := GetOr(change.fields, "value", JObj([])).fields;
      var st1 := TakeMetadata(st, GetOr(v, "metadata", JObj([]))).value;
      AddMessagesExtend(st1.messages, Iterate(GetOr(v, "messages", JArr([]))).value);
      AddStatusesExtend(st1.statuses, Iterate(GetOr(v, "statuses", JArr([]))).value);
    }
  }

  /** One entry appends to the lists. */
  lemma EntryExtends(st: NormState, entry: Json)
    ensures ProcessEntry(st, entry).Ok? ==> Extends(st, ProcessEntry(st, entry).value)
  {
    if ProcessEntry(st, entry).Ok? {
      var changes := Iterate(GetOr(entry.fields, "changes", JArr([]))).value;
      forall t, x | Extends(st, t) && ProcessChange(t, x).Ok?
        ensures Extends(st, ProcessChange(t, x).value)
      {
        ChangeExtends(t, x);
      }
      FoldKeeps(st, changes, ProcessChange, t => Extends(st, t));
    }
  }

  /**
   * Entries are flattened in order: the contacts, messages and statuses
   * gathered from the entries `a` come first, unchanged, in the result for
   * `a + b`.
   */
  lemma EntriesInOrder(st: NormState, a: seq<Json>, b: seq<Json>)
    requires Fold(st, a + b, ProcessEntry).Ok?
    ensures Fold(st, a, ProcessEntry).Ok?
    ensures Extends(Fold(st, a, ProcessEntry).value, Fold(st, a + b, ProcessEntry).value)
  {
    FoldAppend(st, a, b, ProcessEntry);
    var t := Fold(st, a, ProcessEntry).value;
    forall u, x | Extends(t, u) && ProcessEntry(u, x).Ok?
      ensures Extends(t, ProcessEntry(u, x).value)
    {
      EntryExtends(u, x);
    }
    FoldKeeps(t, b, ProcessEntry, u => Extends(t, u));
  }

  // ---------------------------------------------------------------------
  // The first truthy phone number id wins
  // ---------------------------------------------------------------------

  predicate SameNumber(a: NormState, b: NormState) {
    a.pid == b.pid && a.display == b.display
  }

  /** Once a truthy phone number id is known, no change replaces it or its display number. */
  lemma ChangeKeepsNumber(st: NormState, change: Json)
    requires Truthy(st.pid)
    ensures ProcessChange(st, change).Ok? ==> SameNumber(st, ProcessChange(st, change).value)
  {
    var r := ProcessChange(st, change);
    if r.Ok? {
      var c := change.fields;
      var field := GetOr(c, "field", JStr(""));
      if field != JStr("messages") {
        assert r == RecordRaw(st, field, ToSnakeDeep(GetOr(c, "value", JObj([]))));
      } else {
        var v := GetOr(c, "value", JObj([])).fields;
        assert TakeMetadata(st, GetOr(v, "metadata", JObj([]))) == Ok(st);
      }
    }
  }

  /** Across all later entries, the first truthy phone number id and its display number stay. */
  lemma FirstNumberWins(st: NormState, entries: seq<Json>)
    requires Truthy(st.pid)
    ensures Fold(st, entries, ProcessEntry).Ok? ==> SameNumber(st, Fold(st, entries, ProcessEntry).value)
  {
    forall t, x | SameNumber(st, t) && ProcessEntry(t, x).Ok?
      ensures SameNumber(st, ProcessEntry(t, x).value)
    {
      var changes := Iterate(GetOr(x.fields, "changes", JArr([]))).value;
      forall u, c | SameNumber(st, u) && ProcessChange(u, c).Ok?
        ensures SameNumber(st, ProcessChange(u, c).value)
      {
        ChangeKeepsNumber(u, c);
      }
      FoldKeeps(t, changes, ProcessChange, u => SameNumber(st, u));
    }
    FoldKeeps(st, entries, ProcessEntry, t => SameNumber(st, t));
  }

  /** While the id is falsy, a `messages` change reads both numbers from its metadata. */
  lemma NumberFromMetadata(st: NormState, md: Fields)
    requires !Truthy(st.pid)
    ensures TakeMetadata(st, JObj(md)) ==
      Ok(st.(pid := GetOr(md, "phone_number_id", JNull), display := GetOr(md, "display_phone_number", JNull)))
    ensures forall m: Json :: !m.JObj? ==> TakeMetadata(st, m) == Err(AttributeError)
  {
  }

  // ---------------------------------------------------------------------
  // The `from` rename
  // ---------------------------------------------------------------------

  /**
   * After the rename the dict has no `from`; `from_` keeps a value it
   * already had and otherwise takes the popped `from`; every other key is
   * unchanged. A dict without `from` is left alone.
   */
  lemma RenameFromSpec(f: Fields, k: string)
    requires UniqueKeys(f)
    ensures RenameFrom(JObj(f)).Ok? && RenameFrom(JObj(f)).value.JObj?
    ensures "from" !in Keys(f) ==> RenameFrom(JObj(f)) == Ok(JObj(f))
    ensures "from" in Keys(f) ==>
      var g := RenameFrom(JObj(f)).value.fields;
      Get(g, "from") == None &&
      Get(g, "from_") == (if Get(f, "from_").Some? then Get(f, "from_") else Get(f, "from")) &&
      (k != "from" && k != "from_" ==> Get(g, k) == Get(f, k))
  {
    if "from" in Keys(f) {
      var rest := Remove(f, "from");
      GetSpec(f, "from");
      RemoveSpec(f, "from", "from");
      RemoveSpec(f, "from", "from_");
      RemoveSpec(f, "from", k);
      if Get(rest, "from_").None? {
        var popped := GetOr(f, "from", JNull);
        GetPut(rest, "from_", popped, "from");
        GetPut(rest, "from_", popped, "from_");
        GetPut(rest, "from_", popped, k);
      }
    }
  }

  /** A list holding `"from"` has no `setdefault`; a number cannot be searched at all. */
  lemma RenameFromErrors(n: Json)
    ensures n.JArr? && JStr("from") in n.items ==> RenameFrom(n) == Err(AttributeError)
    ensures (n.JInt? || n.JFloat? || n.JBool? || n.JNull?) ==> RenameFrom(n) == Err(TypeError)
  {
  }

  // ---------------------------------------------------------------------
  // Everything stored is in snake_case already
  // ---------------------------------------------------------------------

  predicate Stable(j: Json) {
    ToSnakeDeep(j) == j
  }

  /** A stored message is the model validated from some item after `to_snake_deep` and the `from` rename. */
  ghost predicate ConvertedMessage(w: WebhookMessage) {
    exists m :: RenameFrom(ToSnakeDeep(m)).Ok? && ValidateWebhookMessage(RenameFrom(ToSnakeDeep(m)).value) == Ok(w)
  }

  /** A stored status is the model validated from some item after `to_snake_deep`. */
  ghost predicate ConvertedStatus(u: MessageStatusUpdate) {
    exists s :: ValidateStatusUpdate(ToSnakeDeep(s)) == Ok(u)
  }

  ghost predicate MessagesConverted(ms: seq<WebhookMessage>) {
    forall i :: 0 <= i < |ms| ==> ConvertedMessage(ms[i])
  }

  ghost predicate StatusesConverted(ss: seq<MessageStatusUpdate>) {
    forall i :: 0 <= i < |ss| ==> ConvertedStatus(ss[i])
  }

  /**
   * The stored contacts and raw values are fixed points of `to_snake_deep`,
   * and every stored message and status was validated from a converted item.
   */
  ghost predicate SnakeState(st: NormState) {
    (forall i :: 0 <= i < |st.contacts| ==> Stable(st.contacts[i])) &&
    (forall k, i :: 0 <= i < |RawGet(st.raw, k)| ==> Stable(RawGet(st.raw, k)[i])) &&
    MessagesConverted(st.messages) && StatusesConverted(st.statuses)
  }

  /** The message loop only appends messages validated from converted items. */
  lemma AddMessagesConverted(ms: seq<WebhookMessage>, items: seq<Json>)
    requires MessagesConverted(ms)
    ensures Fold(ms, items, AddMessage).Ok? ==> MessagesConverted(Fold(ms, items, AddMessage).value)
  {
    forall t, x | MessagesConverted(t) && AddMessage(t, x).Ok?
      ensures MessagesConverted(AddMessage(t, x).value)
    {
      var r := AddMessage(t, x).value;
      assert ConvertedMessage(r[|t|]);
      forall i | 0 <= i < |r| ensures ConvertedMessage(r[i]) {
        if i < |t| {
          assert r[i] == t[i];
        }
      }
    }
    FoldKeeps(ms, items, AddMessage, MessagesConverted);
  }

  /** The status loop only appends statuses validated from converted items. */
  lemma AddStatusesConverted(ss: seq<MessageStatusUpdate>, items: seq<Json>)
    requires StatusesConverted(ss)
    ensures Fold(ss, items, AddStatus).Ok? ==> StatusesConverted(Fold(ss, items, AddStatus).value)
  {
    forall t, x | StatusesConverted(t) && AddStatus(t, x).Ok?
      ensures StatusesConverted(AddStatus(t, x).value)
    {
      var r := AddStatus(t, x).value;
      assert ConvertedStatus(r[|t|]);
      forall i | 0 <= i < |r| ensures ConvertedStatus(r[i]) {
        if i < |t| {
          assert r[i] == t[i];
        }
      }
    }
    FoldKeeps(ss, items, AddStatus, StatusesConverted);
  }

  lemma ConvertedIsStable(j: Json)
    ensures Stable(ToSnakeDeep(j))
  {
    CaseDeepProps.ToSnakeDeepIdempotent(j);
  }

  lemma ChangeKeepsSnake(st: NormState, change: Json)
    requires SnakeState(st)
    ensures ProcessChange(st, change).Ok? ==> SnakeState(ProcessChange(st, change).value)
  {
    var r := ProcessChange(st, change);
    if r.Ok? {
      var c := change.fields;
      var field := GetOr(c, "field", JStr(""));
      if field != JStr("messages") {
        assert r == RecordRaw(st, field, ToSnakeDeep(GetOr(c, "value", JObj([]))));
        if field.JStr? {
          ConvertedIsStable(GetOr(c, "value", JObj([])));
          RawKeepsSnake(st, field.s, ToSnakeDeep(GetOr(c, "value", JObj([]))));
        }
      } else {
        MessagesKeepSnake(st, GetOr(c, "value", JObj([])).fields);
      }
    }
  }

  /** Recording a converted value under a string key keeps every stored value converted. */
  lemma RawKeepsSnake(st: NormState, k: string, v: Json)
    requires SnakeState(st) && Stable(v)
    ensures SnakeState(st.(raw := RawAdd(st.raw, k, v)))
  {
    var raw := RawAdd(st.raw, k, v);
    forall k', i | 0 <= i < |RawGet(raw, k')| ensures Stable(RawGet(raw, k')[i]) {
      RawAddSpec(st.raw, k, v, k');
    }
  }

  lemma MessagesKeepSnake(st: NormState, v: Fields)
    requires SnakeState(st)
    ensures ProcessMessages(st, v).Ok? ==> SnakeState(ProcessMessages(st, v).value)
  {
    var r := ProcessMessages(st, v);
    if r.Ok? {
      assert r.value.raw == st.raw;
      AddMessagesConverted(st.messages, ListIn(v, "messages").value);
      AddStatusesConverted(st.statuses, ListIn(v, "statuses").value);
      forall i | 0 <= i < |r.value.contacts| ensures Stable(r.value.contacts[i]) {
        if i >= |st.contacts| {
          var c :| r.value.contacts[i] == ToSnakeDeep(c);
          ConvertedIsStable(c);
        } else {
          assert r.value.contacts[i] == r.value.contacts[..|st.contacts|][i];
        }
      }
    }
  }

  /**
   * After a successful normalisation the stored contacts and raw values are
   * already in snake_case, and every message and status was validated from a
   * converted item.
   */
  lemma StoredValuesAreSnake(payload: Json)
    requires payload.JObj?
    ensures var entries := Iterate(GetOr(payload.fields, "entry", JArr([])));
      entries.Ok? && Fold(Start, entries.value, ProcessEntry).Ok? ==>
      SnakeState(Fold(Start, entries.value, ProcessEntry).value)
  {
    var entries := Iterate(GetOr(payload.fields, "entry", JArr([])));
    if entries.Ok? {
      forall t, x | SnakeState(t) && ProcessEntry(t, x).Ok?
        ensures SnakeState(ProcessEntry(t, x).value)
      {
        var changes := Iterate(GetOr(x.fields, "changes", JArr([]))).value;
        forall u, c | SnakeState(u) && ProcessChange(u, c).Ok?
          ensures SnakeState(ProcessChange(u, c).value)
        {
          ChangeKeepsSnake(u, c);
        }
        FoldKeeps(t, changes, ProcessChange, SnakeState);
      }
      FoldKeeps(Start, entries.value, ProcessEntry, SnakeState);
    }
  }

  // ---------------------------------------------------------------------
  // An item missing a required field aborts normalisation
  // ---------------------------------------------------------------------

  /** The message item `m`, once converted, is a dict without the required `key`. */
  predicate LacksMessageField(m: Json, key: string) {
    m.JObj? && (key == "id" || key == "type" || key == "timestamp") && Get(ToSnakeDeep(m).fields, key).None?
  }

  /** The status item `s`, once converted, is a dict without the required `key`. */
  predicate LacksStatusField(s: Json, key: string) {
    s.JObj? && (key == "id" || key == "status" || key == "timestamp") && Get(ToSnakeDeep(s).fields, key).None?
  }

  /** The message is not skipped: the step raises a validation error, naming `id` when that is missing. */
  lemma MessageMissingField(ms: seq<WebhookMessage>, m: Json, key: string)
    requires LacksMessageField(m, key)
    ensures AddMessage(ms, m).Err? && AddMessage(ms, m).fault.ValidationError?
    ensures key == "id" ==> AddMessage(ms, m) == Err(ValidationError("id"))
  {
    var f := ToSnakeDeep(m).fields;
    RenameFromSpec(f, key);
    var g := RenameFrom(JObj(f)).value.fields;
    assert Get(g, key).None?;
    MessageRequiresFields(g);
  }

  /** The status is not skipped: the step raises a validation error, naming `id` when that is missing. */
  lemma StatusMissingField(ss: seq<MessageStatusUpdate>, s: Json, key: string)
    requires LacksStatusField(s, key)
    ensures AddStatus(ss, s).Err? && AddStatus(ss, s).fault.ValidationError?
    ensures key == "id" ==> AddStatus(ss, s) == Err(ValidationError("id"))
  {
    StatusRequiresFields(ToSnakeDeep(s).fields);
  }

  /** The loop of a "messages" change reaches its `k`-th message, `m`. */
  predicate ReachesMessage(st: NormState, v: Fields, k: nat, m: Json) {
    var ms := ListIn(v, "messages");
    TakeMetadata(st, GetOr(v, "metadata", JObj([]))).Ok? && ListIn(v, "contacts").Ok? &&
    ms.Ok? && k < |ms.value| && ms.value[k] == m && Fold(st.messages, ms.value[..k], AddMessage).Ok?
  }

  /** The loop of a "messages" change gets past every message and reaches its `k`-th status, `s`. */
  predicate ReachesStatus(st: NormState, v: Fields, k: nat, s: Json) {
    var ms, ss := ListIn(v, "messages"), ListIn(v, "statuses");
    TakeMetadata(st, GetOr(v, "metadata", JObj([]))).Ok? && ListIn(v, "contacts").Ok? &&
    ms.Ok? && Fold(st.messages, ms.value, AddMessage).Ok? &&
    ss.Ok? && k < |ss.value| && ss.value[k] == s && Fold(st.statuses, ss.value[..k], AddStatus).Ok?
  }

  /** A message without a required field ends its change with a validation error. */
  lemma MissingMessageFieldAborts(st: NormState, v: Fields, k: nat, m: Json, key: string)
    requires ReachesMessage(st, v, k, m) && LacksMessageField(m, key)
    ensures ProcessMessages(st, v).Err? && ProcessMessages(st, v).fault.ValidationError?
  {
    var items := ListIn(v, "messages").value;
    var t := Fold(st.messages, items[..k], AddMessage).value;
    MessageMissingField(t, m, key);
    FoldFailsAt(st.messages, items, k, AddMessage, t, AddMessage(t, m).fault);
  }

  /** A status without a required field ends its change with a validation error. */
  lemma MissingStatusFieldAborts(st: NormState, v: Fields, k: nat, s: Json, key: string)
    requires ReachesStatus(st, v, k, s) && LacksStatusField(s, key)
    ensures ProcessMessages(st, v).Err? && ProcessMessages(st, v).fault.ValidationError?
  {
    var items := ListIn(v, "statuses").value;
    var t := Fold(st.statuses, items[..k], AddStatus).value;
    StatusMissingField(t, s, key);
    FoldFailsAt(st.statuses, items, k, AddStatus, t, AddStatus(t, s).fault);
  }

  /**
   * `normalize_webhook(d)` gets through the first `i` entries (state `t`)
   * and the first `j` changes of entry `i` (state `u`), and change `j` is `c`.
   */
  predicate ReachesChange(d: Fields, i: nat, t: NormState, j: nat, u: NormState, c: Json) {
    var entries := ListIn(d, "entry");
    entries.Ok? && i < |entries.value| && Fold(Start, entries.value[..i], ProcessEntry) == Ok(t) &&
    entries.value[i].JObj? &&
    var changes := ListIn(entries.value[i].fields, "changes");
    changes.Ok? && j < |changes.value| && changes.value[j] == c && Fold(t, changes.value[..j], ProcessChange) == Ok(u)
  }

  /** A change that raises ends `normalize_webhook` with the same exception. */
  lemma ChangeFailureAborts(d: Fields, i: nat, t: NormState, j: nat, u: NormState, c: Json)
    requires ReachesChange(d, i, t, j, u, c) && ProcessChange(u, c).Err?
    ensures NormalizeSpec(JObj(d)) == Err(ProcessChange(u, c).fault)
  {
    var entries := ListIn(d, "entry").value;
    var e := entries[i];
    var changes := ListIn(e.fields, "changes").value;
    FoldFailsAt(t, changes, j, ProcessChange, u, ProcessChange(u, c).fault);
    FoldFailsAt(Start, entries, i, ProcessEntry, t, ProcessChange(u, c).fault);
  }

  /**
   * A message or status item missing one of its required fields aborts
   * the whole normalisation with a validation error instead of being skipped.
   */
  lemma MissingFieldAbortsNormalize(d: Fields, i: nat, t: NormState, j: nat, u: NormState, c: Json,
                                    k: nat, item: Json, key: string)
    requires ReachesChange(d, i, t, j, u, c)
    requires c.JObj? && GetOr(c.fields, "field", JStr("")) == JStr("messages")
    requires GetOr(c.fields, "value", JObj([])).JObj?
    requires var v := GetOr(c.fields, "value", JObj([])).fields;
      (ReachesMessage(u, v, k, item) && LacksMessageField(item, key)) ||
      (ReachesStatus(u, v, k, item) && LacksStatusField(item, key))
    ensures NormalizeSpec(JObj(d)).Err? && NormalizeSpec(JObj(d)).fault.ValidationError?
  {
    var v := GetOr(c.fields, "value", JObj([])).fields;
    if ReachesMessage(u, v, k, item) && LacksMessageField(item, key) {
      MissingMessageFieldAborts(u, v, k, item, key);
    } else {
      MissingStatusFieldAborts(u, v, k, item, key);
    }
    assert ProcessChange(u, c) == ProcessMessages(u, v);
    ChangeFailureAborts(d, i, t, j, u, c);
  }

  // ---------------------------------------------------------------------
  // The returned webhook
  // ---------------------------------------------------------------------

  /**
   * The messages and statuses of the returned webhook list those of the
   * first `k` entries first, unchanged.
   */
  lemma ResultEntriesInOrder(d: Fields, k: nat)
    requires ListIn(d, "entry").Ok? && k <= |ListIn(d, "entry").value|
    ensures NormalizeSpec(JObj(d)).Ok? ==>
      var prefix := Fold(Start, ListIn(d, "entry").value[..k], ProcessEntry);
      prefix.Ok? &&
      prefix.value.messages <= NormalizeSpec(JObj(d)).value.messages &&
      prefix.value.statuses <= NormalizeSpec(JObj(d)).value.statuses
  {
    var entries := ListIn(d, "entry").value;
    if NormalizeSpec(JObj(d)).Ok? {
      assert entries[..k] + entries[k..] == entries;
      EntriesInOrder(Start, entries[..k], entries[k..]);
    }
  }

  /**
   * Once the first `k` entries have given a truthy phone number id, the
   * returned webhook carries that id and its display number.
   */
  lemma ResultKeepsFirstNumber(d: Fields, k: nat, t: NormState)
    requires ListIn(d, "entry").Ok? && k <= |ListIn(d, "entry").value|
    requires Fold(Start, ListIn(d, "entry").value[..k], ProcessEntry) == Ok(t) && Truthy(t.pid)
    ensures NormalizeSpec(JObj(d)).Ok? ==>
      NormalizeSpec(JObj(d)).value.phoneNumberId == AsStr(t.pid) &&
      NormalizeSpec(JObj(d)).value.displayPhoneNumber == AsStr(t.display)
  {
    var entries := ListIn(d, "entry").value;
    assert entries[..k] + entries[k..] == entries;
    FoldAppend(Start, entries[..k], entries[k..], ProcessEntry);
    FirstNumberWins(t, entries[k..]);
  }

  /**
   * Every contact of the returned webhook is a snake_case dict, and every
   * message and status is the model validated from a converted item.
   */
  lemma ResultIsConverted(d: Fields)
    ensures NormalizeSpec(JObj(d)).Ok? ==>
      var w := NormalizeSpec(JObj(d)).value;
      (forall i :: 0 <= i < |w.contacts| ==> Stable(JObj(w.contacts[i]))) &&
      MessagesConverted(w.messages) && StatusesConverted(w.statuses)
  {
    StoredValuesAreSnake(JObj(d));
    if NormalizeSpec(JObj(d)).Ok? {
      var w := NormalizeSpec(JObj(d)).value;
      var st := Fold(Start, ListIn(d, "entry").value, ProcessEntry).value;
      forall i | 0 <= i < |w.contacts| ensures Stable(JObj(w.contacts[i])) {
        assert DictValue(st.contacts[i]) == Ok(w.contacts[i]);
      }
    }
  }
}
