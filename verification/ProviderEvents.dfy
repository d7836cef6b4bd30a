/**
 Provider observations: what the writer admits into the log, and what the reader shows of it.
 */
module ProviderEvents {
  import opened Options
  import opened ProviderText

  /**
   A detail as it comes out of an untyped map. Opaque stands for a value of any type that the validator does not
   know, such as a duration or a list of integers, with the value that JSON makes of it.
   */
  datatype Value =
    | Null
    | Flag(b: bool)
    | Number(n: real)
    | Text(text: string)
    | Texts(texts: seq<string>)
    | List(items: seq<Value>)
    | Object(fields: map<string, Value>)
    | Opaque(asJson: Value)

  datatype Event = Event(
    level: string, component: string, event: string, pluginId: string, generationId: nat, pid: int,
    socketPath: string, rpcMethod: string, capabilityId: string, operationId: string, correlationId: string,
    status: string, durationMs: int, errorClass: string, degradedReason: string, message: string,
    error: string, reason: string, details: map<string, Value>)

  datatype Observation = Observation(
    level: string, component: string, event: string, pluginId: string, generationId: nat,
    capabilityId: string, operationId: string, correlationId: string, status: string, durationMs: int,
    errorClass: string, degradedReason: string, message: string, details: map<string, Value>)

  datatype Rejection = BadObservation | UnsafeDetails

  // ----- detail trees -----

  /** The recursive validator. */
  predicate SafeValue(v: Value) {
    match v
    case Null => true
    case Flag(_) => true
    case Number(_) => true
    case Text(t) => Safe(t)
    case Texts(ts) => forall i :: 0 <= i < |ts| ==> Safe(ts[i])
    case List(items) => forall i :: 0 <= i < |items| ==> SafeValue(items[i])
    case Object(fields) => forall k :: k in fields ==> !Unsafe(k) && SafeValue(fields[k])
    case Opaque(_) => false
  }

  predicate SafeFields(fields: map<string, Value>) {
    SafeValue(Object(fields))
  }

  /** One step down into a tree. */
  datatype Turn = Item(index: nat) | Field(key: string)

  function Child(v: Value, turn: Turn): Option<Value> {
    if v.List? && turn.Item? && turn.index < |v.items| then Some(v.items[turn.index])
    else if v.Object? && turn.Field? && turn.key in v.fields then Some(v.fields[turn.key])
    else None
  }

  /** The subtree at the end of a path. */
  function Follow(v: Value, path: seq<Turn>): Option<Value> {
    if path == [] then Some(v)
    else
      var child := Child(v, path[0]);
      if child.None? then None else Follow(child.value, path[1..])
  }

  /** Nothing unsafe stands directly in this node. */
  predicate SafeNode(v: Value) {
    && !v.Opaque?
    && (v.Text? ==> Safe(v.text))
    && (v.Texts? ==> forall i :: 0 <= i < |v.texts| ==> Safe(v.texts[i]))
    && (v.Object? ==> forall k :: k in v.fields ==> !Unsafe(k))
  }

  /** Nothing unsafe stands anywhere in the tree. */
  ghost predicate SafeEverywhere(v: Value) {
    forall path :: Follow(v, path).Some? ==> SafeNode(Follow(v, path).value)
  }

  lemma {:induction false} SafeBelow(v: Value, path: seq<Turn>)
    requires SafeValue(v) && Follow(v, path).Some?
    ensures SafeNode(Follow(v, path).value)
    decreases |path|
  {
    if path != [] {
      SafeBelow(Child(v, path[0]).value, path[1..]);
    }
  }

  lemma {:induction false} SafeFromNodes(v: Value)
    requires SafeEverywhere(v)
    ensures SafeValue(v)
  {
    assert Follow(v, []) == Some(v);
    match v
    case List(items) =>
      forall i | 0 <= i < |items|
        ensures SafeValue(items[i])
      {
        ChildInherits(v, Item(i));
        SafeFromNodes(items[i]);
      }
    case Object(fields) =>
      forall k | k in fields
        ensures SafeValue(fields[k])
      {
        ChildInherits(v, Field(k));
        SafeFromNodes(fields[k]);
      }
    case _ =>
  }

  lemma {:induction false} ChildInherits(v: Value, turn: Turn)
    requires Child(v, turn).Some?
    requires SafeEverywhere(v)
    ensures SafeEverywhere(Child(v, turn).value)
  {
    forall path | Follow(Child(v, turn).value, path).Some?
      ensures SafeNode(Follow(Child(v, turn).value, path).value)
    {
      assert ([turn] + path)[1..] == path;
      assert Follow(v, [turn] + path) == Follow(Child(v, turn).value, path);
    }
  }

  /** The validator accepts a tree exactly if nothing unsafe stands anywhere in it. */
  lemma SafeTreeExactly(v: Value)
    ensures SafeValue(v) <==> SafeEverywhere(v)
  {
    if SafeValue(v) {
      forall path | Follow(v, path).Some?
        ensures SafeNode(Follow(v, path).value)
      {
        SafeBelow(v, path);
      }
    }
    if SafeEverywhere(v) {
      SafeFromNodes(v);
    }
  }

  /** A field that the copying loop may copy. */
  predicate GoodField(details: map<string, Value>, key: string)
    requires key in details
  {
    !Unsafe(key) && SafeValue(details[key])
  }

  lemma FieldsExactly(details: map<string, Value>)
    ensures SafeFields(details) <==> forall k :: k in details ==> GoodField(details, k)
  {
    hide Unsafe;
  }

  lemma CopyOneMore(details: map<string, Value>, todo: set<string>, key: string)
    requires todo <= details.Keys && key in todo
    ensures (details - todo)[key := details[key]] == details - (todo - {key})
  {
  }

  /** The copying loop over a map of details, in any order of its keys. */
  method SafeProviderDetails(details: map<string, Value>, ghost tree: Value)
    returns (r: Result<map<string, Value>, Rejection>)
    requires tree == Object(details)
    ensures r.Ok? <==> SafeFields(details)
    ensures r.Ok? ==> r.value == details
    decreases tree, 1
  {
    hide Unsafe, SafeValue, SafeFields;
    FieldsExactly(details);
    var copy: map<string, Value> := map[];
    var todo := details.Keys;
    assert details - todo == map[];
    while todo != {}
      invariant todo <= details.Keys
      invariant copy == details - todo
      invariant forall k :: k in details && k !in todo ==> GoodField(details, k)
      decreases |todo|
    {
      var key :| key in todo;
      var unsafe := UnsafeProviderText(key);
      if unsafe {
        assert !GoodField(details, key);
        return Err(UnsafeDetails);
      }
      var ok := ValidateDetailValue(details[key]);
      if !ok {
        assert !GoodField(details, key);
        return Err(UnsafeDetails);
      }
      CopyOneMore(details, todo, key);
      copy := copy[key := details[key]];
      todo := todo - {key};
    }
    assert details - {} == details;
    return Ok(copy);
  }

  method UnsafeOrPrivate(text: string) returns (r: bool)
    ensures r == !Safe(text)
  {
    r := UnsafeProviderText(text);
    r := r || LooksPrivate(text);
  }

  method ValidateDetailValue(v: Value) returns (ok: bool)
    ensures ok == SafeValue(v)
    decreases v, 2
  {
    match v {
      case Null => return true;
      case Flag(_) => return true;
      case Number(_) => return true;
      case Text(t) =>
        var bad := UnsafeOrPrivate(t);
        return !bad;
      case Texts(ts) =>
        for i := 0 to |ts|
          invariant forall k :: 0 <= k < i ==> Safe(ts[k])
        {
          var bad := UnsafeOrPrivate(ts[i]);
          if bad {
            return false;
          }
        }
        return true;
      case List(items) =>
        for i := 0 to |items|
          invariant forall k :: 0 <= k < i ==> SafeValue(items[k])
        {
          var ok := ValidateDetailValue(items[i]);
          if !ok {
            return false;
          }
        }
        return true;
      case Object(fields) =>
        var r := SafeProviderDetails(fields, v);
        return r.Ok?;
      case Opaque(_) => return false;
    }
  }

  // ----- the writer's side -----

  predicate IsAlphanumeric(c: char) {
    IsAsciiLetter(c) || '0' <= c <= '9'
  }

  predicate ValidPluginId(id: string) {
    && id != "" && IsAlphanumeric(id[0])
    && forall i :: 0 <= i < |id| ==> IsAlphanumeric(id[i]) || id[i] == '.' || id[i] == '_' || id[i] == '-'
  }

  predicate IsControl(c: char) {
    c <= '\U{001F}' || '\U{007F}' <= c <= '\U{009F}'
  }

  predicate AcceptableText(text: string) {
    TrimSpace(text) == "" || ((forall i :: 0 <= i < |text| ==> !IsControl(text[i])) && Safe(text))
  }

  const BOUNDARY := "provider_boundary"
  const DIAGNOSTIC := "provider_diagnostic"
  const OPERATION_EVENTS: map<string, string> := map[
    "provider_operation_started" := "started",
    "provider_operation_succeeded" := "succeeded",
    "provider_operation_failed" := "failed",
    "provider_operation_degraded" := "degraded",
    "provider_operation_unavailable" := "unavailable"]
  const REPORTED := "provider_diagnostic_reported"
  const REJECTED := "provider_diagnostic_rejected"
  const STATUSES: set<string> := {"started", "succeeded", "failed", "degraded", "unavailable", "rejected"}

  predicate EventFits(component: string, event: string, status: string) {
    if event in OPERATION_EVENTS then component == BOUNDARY && status == OPERATION_EVENTS[event]
    else if event == REPORTED then component == DIAGNOSTIC
    else event == REJECTED && component == DIAGNOSTIC && status == "rejected"
  }

  predicate ValidObservation(o: Observation) {
    && ValidPluginId(o.pluginId)
    && o.generationId != 0
    && TrimSpace(o.capabilityId) != "" && TrimSpace(o.operationId) != "" && TrimSpace(o.correlationId) != ""
    && AcceptableText(o.capabilityId) && AcceptableText(o.operationId) && AcceptableText(o.correlationId)
    && AcceptableText(o.errorClass) && AcceptableText(o.degradedReason) && AcceptableText(o.message)
    && o.durationMs >= 0
    && o.status in STATUSES
    && EventFits(o.component, o.event, o.status)
  }

  /** The event that an observation would become. */
  function EventOf(o: Observation): Event {
    Event(if o.level == "" then "info" else o.level, o.component, o.event, o.pluginId, o.generationId, 0,
          "", "", o.capabilityId, o.operationId, o.correlationId, o.status, o.durationMs, o.errorClass,
          o.degradedReason, o.message, "", "", o.details)
  }

  function ProviderEvent(o: Observation): Result<Event, Rejection> {
    if !ValidObservation(o) then Err(BadObservation)
    else if !SafeFields(o.details) then Err(UnsafeDetails)
    else Ok(EventOf(o))
  }

  // ----- the reader's side -----

  predicate IsProviderEvent(e: Event) {
    || e.component == BOUNDARY || e.component == DIAGNOSTIC
    || e.event in OPERATION_EVENTS || e.event == REPORTED || e.event == REJECTED
  }

  function Redact(text: string): string {
    if text == "" then "" else if Unsafe(text) || LooksPrivate(text) then REDACTED else text
  }

  const REDACTED_DETAILS: map<string, Value> := map["redacted" := Flag(true)]

  function RedactDetails(details: map<string, Value>): map<string, Value> {
    if details == map[] then details else if SafeFields(details) then details else REDACTED_DETAILS
  }

  function RedactForDisplay(e: Event): Event {
    if !IsProviderEvent(e) then e
    else e.(socketPath := Redact(e.socketPath),
            capabilityId := Redact(e.capabilityId),
            operationId := Redact(e.operationId),
            correlationId := Redact(e.correlationId),
            errorClass := Redact(e.errorClass),
            degradedReason := Redact(e.degradedReason),
            message := Redact(e.message),
            error := Redact(e.error),
            reason := Redact(e.reason),
            details := RedactDetails(e.details))
  }

  /** The nine texts and the details that are shown of a provider event are all safe. */
  predicate Displayable(e: Event) {
    && Safe(e.socketPath) && Safe(e.capabilityId) && Safe(e.operationId) && Safe(e.correlationId)
    && Safe(e.errorClass) && Safe(e.degradedReason) && Safe(e.message) && Safe(e.error) && Safe(e.reason)
    && SafeFields(e.details)
  }

  // ----- the two sides agree -----

  lemma RedactExactly(text: string)
    ensures Safe(Redact(text))
    ensures Redact(text) == text <==> Safe(text)
  {
    RedactedIsSafe();
    BlankIsSafe("");
  }

  lemma RedactDetailsExactly(details: map<string, Value>)
    ensures SafeFields(RedactDetails(details))
    ensures RedactDetails(details) == details <==> SafeFields(details)
  {
    RedactedIsSafe();
    assert SafeFields(REDACTED_DETAILS);
  }

  lemma AcceptableIsSafe(text: string)
    requires AcceptableText(text)
    ensures Safe(text)
  {
    if TrimSpace(text) == "" {
      BlankIsSafe(text);
    }
  }

  /** What is displayed of a provider event is safe, and it is unchanged exactly if it was safe already. */
  lemma RedactionExactly(e: Event)
    requires IsProviderEvent(e)
    ensures Displayable(RedactForDisplay(e))
    ensures RedactForDisplay(e) == e <==> Displayable(e)
  {
    hide Unsafe, LooksPrivate, SafeFields, Redact, RedactDetails, Safe;
    RedactExactly(e.socketPath);
    RedactExactly(e.capabilityId);
    RedactExactly(e.operationId);
    RedactExactly(e.correlationId);
    RedactExactly(e.errorClass);
    RedactExactly(e.degradedReason);
    RedactExactly(e.message);
    RedactExactly(e.error);
    RedactExactly(e.reason);
    RedactDetailsExactly(e.details);
  }

  /** One text as it is shown. */
  predicate ShownAs(text: string, shown: string) {
    shown == if Safe(text) then text else "[redacted]"
  }

  /**
   What is shown of any event, field by field. Of a provider event each of nine texts is shown or replaced by itself,
   and the details are shown or replaced as a whole; everything else, and every other event, is shown as it is.
   */
  lemma RedactionFieldByField(e: Event)
    ensures
      var r := RedactForDisplay(e);
      && (!IsProviderEvent(e) ==> r == e)
      && r == e.(socketPath := r.socketPath, capabilityId := r.capabilityId, operationId := r.operationId,
                 correlationId := r.correlationId, errorClass := r.errorClass, degradedReason := r.degradedReason,
                 message := r.message, error := r.error, reason := r.reason, details := r.details)
      && (IsProviderEvent(e) ==>
            && ShownAs(e.socketPath, r.socketPath) && ShownAs(e.capabilityId, r.capabilityId)
            && ShownAs(e.operationId, r.operationId) && ShownAs(e.correlationId, r.correlationId)
            && ShownAs(e.errorClass, r.errorClass) && ShownAs(e.degradedReason, r.degradedReason)
            && ShownAs(e.message, r.message) && ShownAs(e.error, r.error) && ShownAs(e.reason, r.reason)
            && r.details == if SafeFields(e.details) then e.details else map["redacted" := Flag(true)])
  {
    hide Unsafe, LooksPrivate, SafeFields, Redact, RedactDetails;
    RedactShows(e.socketPath);
    RedactShows(e.capabilityId);
    RedactShows(e.operationId);
    RedactShows(e.correlationId);
    RedactShows(e.errorClass);
    RedactShows(e.degradedReason);
    RedactShows(e.message);
    RedactShows(e.error);
    RedactShows(e.reason);
    RedactDetailsShow(e.details);
  }

  lemma RedactShows(text: string)
    ensures ShownAs(text, Redact(text))
  {
    BlankIsSafe("");
  }

  lemma RedactDetailsShow(details: map<string, Value>)
    ensures RedactDetails(details) == if SafeFields(details) then details else map["redacted" := Flag(true)]
  {
  }

  /** Which events are provider events: by component or by name. */
  lemma ProviderEventsExactly(e: Event)
    ensures IsProviderEvent(e) <==>
      || e.component in ["provider_boundary", "provider_diagnostic"]
      || e.event in ["provider_operation_started", "provider_operation_succeeded", "provider_operation_failed",
                     "provider_operation_degraded", "provider_operation_unavailable",
                     "provider_diagnostic_reported", "provider_diagnostic_rejected"]
  {
  }

  /** An event name fixes its component and, unless it is a report, its status. */
  lemma EventFixesStatus(c: string, d: string, event: string, status: string, other: string)
    requires EventFits(c, event, status) && EventFits(d, event, other)
    ensures c == d && (event != "provider_diagnostic_reported" ==> status == other)
    ensures c == "provider_boundary" ==> event == "provider_operation_" + status
    ensures c == "provider_diagnostic" ==>
      event == "provider_diagnostic_reported" || (event == "provider_diagnostic_rejected" && status == "rejected")
    ensures c == "provider_boundary" || c == "provider_diagnostic"
  {
  }

  /** What is written of an admitted observation. */
  lemma AdmittedIsWrittenWhole(o: Observation)
    requires ProviderEvent(o).Ok?
    ensures
      var e := ProviderEvent(o).value;
      && e.level == (if o.level == "" then "info" else o.level)
      && e.component == o.component && e.event == o.event && e.status == o.status
      && e.pluginId == o.pluginId && e.generationId == o.generationId
      && e.capabilityId == o.capabilityId && e.operationId == o.operationId && e.correlationId == o.correlationId
      && e.durationMs == o.durationMs && e.errorClass == o.errorClass && e.degradedReason == o.degradedReason
      && e.message == o.message && e.details == o.details
  {
  }

  /** Redacting twice is redacting once, for all events. */
  lemma RedactionIdempotent(e: Event)
    ensures RedactForDisplay(RedactForDisplay(e)) == RedactForDisplay(e)
  {
    if IsProviderEvent(e) {
      RedactionExactly(e);
      RedactionExactly(RedactForDisplay(e));
    }
  }

  /** What the writer admits the reader shows as it is. */
  lemma WriterAndReaderAgree(o: Observation)
    requires ProviderEvent(o).Ok?
    ensures IsProviderEvent(ProviderEvent(o).value)
    ensures RedactForDisplay(ProviderEvent(o).value) == ProviderEvent(o).value
  {
    hide Unsafe, LooksPrivate, SafeFields;
    var e := ProviderEvent(o).value;
    BlankIsSafe("");
    AcceptableIsSafe(o.capabilityId);
    AcceptableIsSafe(o.operationId);
    AcceptableIsSafe(o.correlationId);
    AcceptableIsSafe(o.errorClass);
    AcceptableIsSafe(o.degradedReason);
    AcceptableIsSafe(o.message);
    RedactionExactly(e);
  }

  predicate Printable(text: string) {
    TrimSpace(text) == "" || forall i :: 0 <= i < |text| ==> !IsControl(text[i])
  }

  /** Everything the writer asks for that has nothing to do with unsafe contents. */
  predicate WellFormed(o: Observation) {
    && ValidPluginId(o.pluginId)
    && o.generationId != 0
    && TrimSpace(o.capabilityId) != "" && TrimSpace(o.operationId) != "" && TrimSpace(o.correlationId) != ""
    && Printable(o.capabilityId) && Printable(o.operationId) && Printable(o.correlationId)
    && Printable(o.errorClass) && Printable(o.degradedReason) && Printable(o.message)
    && o.durationMs >= 0
    && o.status in STATUSES
    && EventFits(o.component, o.event, o.status)
  }

  lemma AcceptableExactly(text: string)
    ensures AcceptableText(text) <==> Printable(text) && Safe(text)
  {
    if AcceptableText(text) {
      AcceptableIsSafe(text);
    }
  }

  /** The writer's rule and the reader's rule are the same rule: admitted exactly if it would be shown unchanged. */
  lemma WriterRuleIsReaderRule(o: Observation)
    ensures ProviderEvent(o).Ok? <==> WellFormed(o) && RedactForDisplay(EventOf(o)) == EventOf(o)
    ensures ProviderEvent(o).Ok? ==> ProviderEvent(o).value == EventOf(o)
  {
    hide Unsafe, LooksPrivate, SafeFields, AcceptableText, Printable, Safe, ValidPluginId, RedactForDisplay;
    BlankIsSafe("");
    AcceptableExactly(o.capabilityId);
    AcceptableExactly(o.operationId);
    AcceptableExactly(o.correlationId);
    AcceptableExactly(o.errorClass);
    AcceptableExactly(o.degradedReason);
    AcceptableExactly(o.message);
    if WellFormed(o) {
      RedactionExactly(EventOf(o));
    }
  }

  // ----- the way through the log file -----

  /**
   A detail after it was written as JSON and read again: string lists are lists, numbers are floats, and values of
   unknown type are whatever JSON makes of them.
   */
  function AsRead(v: Value, float: real -> real): Value {
    match v
    case Number(n) => Number(float(n))
    case Texts(ts) => List(seq(|ts|, i requires 0 <= i < |ts| => Text(ts[i])))
    case List(items) => List(seq(|items|, i requires 0 <= i < |items| => AsRead(items[i], float)))
    case Object(fields) => Object(map k | k in fields :: AsRead(fields[k], float))
    case Opaque(json) => AsRead(json, float)
    case _ => v
  }

  /** No value of unknown type stands in the tree. */
  predicate Supported(v: Value) {
    match v
    case List(items) => forall i :: 0 <= i < |items| ==> Supported(items[i])
    case Object(fields) => forall k :: k in fields ==> Supported(fields[k])
    case Opaque(_) => false
    case _ => true
  }

  /** The shapes that come out of a JSON decoder. */
  predicate IsJson(v: Value) {
    match v
    case Texts(_) => false
    case List(items) => forall i :: 0 <= i < |items| ==> IsJson(items[i])
    case Object(fields) => forall k :: k in fields ==> IsJson(fields[k])
    case Opaque(_) => false
    case _ => true
  }

  /** What was read from the file holds no value of unknown type, whatever was written. */
  lemma {:induction false} ReadIsJson(v: Value, float: real -> real)
    ensures IsJson(AsRead(v, float)) && Supported(AsRead(v, float))
  {
    match v
    case List(items) =>
      forall i | 0 <= i < |items| ensures IsJson(AsRead(items[i], float)) && Supported(AsRead(items[i], float)) {
        ReadIsJson(items[i], float);
      }
    case Object(fields) =>
      forall k | k in fields ensures IsJson(AsRead(fields[k], float)) && Supported(AsRead(fields[k], float)) {
        ReadIsJson(fields[k], float);
      }
    case Opaque(json) => ReadIsJson(json, float);
    case _ =>
  }

  /** The validator accepts a tree exactly if it holds no value of unknown type and is accepted as read back. */
  lemma {:induction false} AsReadExactly(v: Value, float: real -> real)
    ensures SafeValue(v) <==> Supported(v) && SafeValue(AsRead(v, float))
  {
    hide Safe, Unsafe;
    match v
    case Texts(ts) =>
      var items := AsRead(v, float).items;
      assert forall i :: 0 <= i < |ts| ==> items[i] == Text(ts[i]) && (SafeValue(items[i]) <==> Safe(ts[i]));
    case List(items) =>
      forall i | 0 <= i < |items|
        ensures SafeValue(items[i]) <==> Supported(items[i]) && SafeValue(AsRead(items[i], float))
      {
        AsReadExactly(items[i], float);
      }
      var read := AsRead(v, float).items;
      assert forall i :: 0 <= i < |items| ==> read[i] == AsRead(items[i], float);
    case Object(fields) =>
      forall k | k in fields
        ensures SafeValue(fields[k]) <==> Supported(fields[k]) && SafeValue(AsRead(fields[k], float))
      {
        AsReadExactly(fields[k], float);
      }
      var read := AsRead(v, float).fields;
      assert forall k :: k in fields <==> k in read;
    case _ =>
  }

  function EventAsRead(e: Event, float: real -> real): Event {
    e.(details := AsRead(Object(e.details), float).fields)
  }

  /**
   An event is shown unchanged exactly if its details hold no value of unknown type and it is shown unchanged after
   the way through the file.
   */
  lemma ReadBackIsShownAlike(e: Event, float: real -> real)
    requires IsProviderEvent(e)
    ensures
      RedactForDisplay(e) == e <==>
      Supported(Object(e.details)) && RedactForDisplay(EventAsRead(e, float)) == EventAsRead(e, float)
  {
    hide RedactForDisplay, Safe, AsRead;
    RedactionExactly(e);
    RedactionExactly(EventAsRead(e, float));
    AsReadExactly(Object(e.details), float);
    AsReadIsObject(e.details, float);
  }

  const DELAY := "delay"

  /** A duration: a number to JSON, and of unknown type to the validator. */
  const DURATION: map<string, Value> := map[DELAY := Opaque(Number(5.0))]

  lemma DurationIsRefused()
    ensures RedactDetails(DURATION) == REDACTED_DETAILS
  {
    assert !SafeValue(DURATION[DELAY]);
  }

  lemma DurationReadsAsNumber(float: real -> real)
    ensures AsRead(Object(DURATION), float).fields == map[DELAY := Number(float(5.0))]
    ensures SafeFields(AsRead(Object(DURATION), float).fields)
  {
    WithoutTellingLetters(DELAY);
  }

  /**
   "Shown alike before and after the file" fails: an event with a duration among its details is redacted as it
   stands, but comes back from the file with a number and is shown.
   */
  lemma UnknownTypeIsShownAfterReadBack(e: Event, float: real -> real)
    requires IsProviderEvent(e) && Displayable(e.(details := map[]))
    ensures
      var written := e.(details := DURATION);
      && RedactForDisplay(written).details == REDACTED_DETAILS
      && RedactForDisplay(EventAsRead(written, float)) == EventAsRead(written, float)
  {
    hide Safe, SafeFields, AsRead, RedactDetails, Redact;
    DurationIsRefused();
    DurationReadsAsNumber(float);
    var read := EventAsRead(e.(details := DURATION), float);
    assert Displayable(read);
    RedactionExactly(read);
  }

  lemma AsReadIsObject(details: map<string, Value>, float: real -> real)
    ensures AsRead(Object(details), float) == Object(AsRead(Object(details), float).fields)
  {
  }

  /** What the writer admits is shown as it was read back. */
  lemma AdmittedIsShownAfterReadBack(o: Observation, float: real -> real)
    requires ProviderEvent(o).Ok?
    ensures
      var e := EventAsRead(ProviderEvent(o).value, float);
      RedactForDisplay(e) == e
  {
    hide RedactForDisplay;
    WriterAndReaderAgree(o);
    ReadBackIsShownAlike(ProviderEvent(o).value, float);
  }
}
