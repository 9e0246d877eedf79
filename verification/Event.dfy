/** Audit events, their preparation, and the metric rollup of one event. */
module AuditEvent {
  import opened Clock
  import opened Text

  datatype Option<T> = None | Some(value: T)

  const RESULT_SUCCESS := "success"
  const RESULT_FAILURE := "failure"
  const RESULT_DENIED := "denied"

  /**
   A metadata value by the way it is made safe: text, something that prints itself,
   a plain scalar, or anything else, with the text it prints as.
   */
  datatype Value = Words(text: string) | Stringer(text: string) | Scalar(number: int) | NilValue | Other(text: string)

  /** A metadata map may be nil, which differs from empty only until it is stored. */
  datatype Metadata = NilMetadata | Entries(entries: map<string, Value>)

  datatype Event = Event(
    id: string,
    timestamp: Time,
    actor: string,
    action: string,
    method_: string,
    path: string,
    endpoint: string,
    statusCode: int,
    result: string,
    userAgent: string,
    message: string,
    metadata: Metadata)

  /** The zero event, which a counted but unsaved item carries. */
  const EMPTY_EVENT := Event("", ZERO_TIME, "", "", "", "", "", 0, "", "", "", NilMetadata)

  datatype MetricRollup = MetricRollup(
    bucketStart: Time,
    bucketSize: Duration,
    endpoint: string,
    method_: string,
    action: string,
    result: string,
    statusClass: string,
    statusCode: int,
    count: int)

  // ----- Safe metadata -----

  const SENSITIVE_PARTS: seq<string> := [
    "password", "passwd", "secret", "token", "authorization", "cookie", "set-cookie",
    "body", "payload", "credential", "service_account", "apikey", "api_key"]

  ghost predicate Sensitive(key: string) {
    exists i :: 0 <= i < |SENSITIVE_PARTS| && Contains(ToLower(TrimSpace(key)), SENSITIVE_PARTS[i])
  }

  method IsSensitiveKey(key: string) returns (yes: bool)
    ensures yes == Sensitive(key)
  {
    var lowered := ToLower(TrimSpace(key));
    for i := 0 to |SENSITIVE_PARTS|
      invariant forall j :: 0 <= j < i ==> !Contains(lowered, SENSITIVE_PARTS[j])
    {
      if Contains(lowered, SENSITIVE_PARTS[i]) {
        return true;
      }
    }
    return false;
  }

  function SafeValue(v: Value): Value {
    match v
    case Words(text) => Words(Truncate(text, 256))
    case Stringer(text) => Words(Truncate(text, 256))
    case Other(text) => Words(Truncate(text, 256))
    case _ => v
  }

  ghost function Safe(metadata: Metadata): Metadata {
    if metadata.NilMetadata? || metadata.entries == map[] then NilMetadata
    else Entries(map k | k in metadata.entries && !Sensitive(k) :: SafeValue(metadata.entries[k]))
  }

  /** Visits the entries in whatever order they come. */
  method SafeMetadata(metadata: Metadata) returns (out: Metadata)
    ensures out == Safe(metadata)
  {
    if metadata.NilMetadata? || |metadata.entries| == 0 {
      return NilMetadata;
    }
    var pending := metadata.entries.Keys;
    var kept: map<string, Value> := map[];
    while pending != {}
      invariant pending <= metadata.entries.Keys
      invariant forall k :: k in kept <==> k in metadata.entries && k !in pending && !Sensitive(k)
      invariant forall k :: k in kept ==> kept[k] == SafeValue(metadata.entries[k])
      decreases |pending|
    {
      var key :| key in pending;
      pending := pending - {key};
      var sensitive := IsSensitiveKey(key);
      if !sensitive {
        kept := kept[key := SafeValue(metadata.entries[key])];
      }
    }
    return Entries(kept);
  }

  // ----- Preparation -----

  /** What preparation makes of an event; `random` and `now` are what the generator and the clock supply. */
  ghost function Prepared(e: Event, random: string, now: Time): (p: Event)
    ensures p.id != ""
    ensures now != ZERO_TIME ==> p.timestamp != ZERO_TIME
  {
    e.(
      id := if e.id == "" then "audit_" + random else e.id,
      timestamp := if e.timestamp == ZERO_TIME then now else e.timestamp,
      actor := if e.actor == "" then "anonymous" else e.actor,
      method_ := ToUpper(TrimSpace(e.method_)),
      result := ToLower(TrimSpace(if e.result == "" then RESULT_SUCCESS else e.result)),
      userAgent := Truncate(e.userAgent, 512),
      message := Truncate(e.message, 512),
      metadata := Safe(e.metadata))
  }

  /** An event someone else owns. */
  class EventRef {
    var value: Event

    constructor (value: Event)
      ensures this.value == value
    {
      this.value := value;
    }
  }

  method PrepareEvent(event: EventRef?, random: string, now: Time)
    modifies event
    ensures event != null ==> event.value == Prepared(old(event.value), random, now)
  {
    if event == null {
      return;
    }
    if event.value.id == "" {
      event.value := event.value.(id := "audit_" + random);
    }
    if event.value.timestamp == ZERO_TIME {
      event.value := event.value.(timestamp := now);
    }
    if event.value.actor == "" {
      event.value := event.value.(actor := "anonymous");
    }
    if event.value.result == "" {
      event.value := event.value.(result := RESULT_SUCCESS);
    }
    event.value := event.value.(method_ := ToUpper(TrimSpace(event.value.method_)));
    event.value := event.value.(result := ToLower(TrimSpace(event.value.result)));
    event.value := event.value.(userAgent := Truncate(event.value.userAgent, 512));
    event.value := event.value.(message := Truncate(event.value.message, 512));
    var safe := SafeMetadata(event.value.metadata);
    event.value := event.value.(metadata := safe);
  }

  // ----- What preparation keeps -----

  /** One of the words that no stored key may contain, white space and case aside. */
  predicate NamesSecret(key: string) {
    var k := ToLower(TrimSpace(key));
    || Occurs("password", k) || Occurs("passwd", k) || Occurs("secret", k) || Occurs("token", k)
    || Occurs("authorization", k) || Occurs("cookie", k) || Occurs("set-cookie", k) || Occurs("body", k)
    || Occurs("payload", k) || Occurs("credential", k) || Occurs("service_account", k)
    || Occurs("apikey", k) || Occurs("api_key", k)
  }

  lemma SensitiveNamesSecret(key: string)
    ensures Sensitive(key) <==> NamesSecret(key)
  {
    var k := ToLower(TrimSpace(key));
    hide TrimSpace, ToLower;
    forall i | 0 <= i < |SENSITIVE_PARTS| ensures Contains(k, SENSITIVE_PARTS[i]) <==> Occurs(SENSITIVE_PARTS[i], k) {
      ContainsExactly(k, SENSITIVE_PARTS[i]);
    }
    hide Contains, Occurs;
    var p := SENSITIVE_PARTS;
    assert |p| == 13;
    assert Sensitive(key) <==>
      Contains(k, p[0]) || Contains(k, p[1]) || Contains(k, p[2]) || Contains(k, p[3]) || Contains(k, p[4])
      || Contains(k, p[5]) || Contains(k, p[6]) || Contains(k, p[7]) || Contains(k, p[8]) || Contains(k, p[9])
      || Contains(k, p[10]) || Contains(k, p[11]) || Contains(k, p[12]);
  }

  /** Text of up to 256 bytes and scalars stay; longer text is its first 256 bytes; what else there is becomes text. */
  predicate ValueKept(given: Value, kept: Value) {
    match given
    case Scalar(_) => kept == given
    case NilValue => kept == given
    case Words(text) => kept == Words(if |text| <= 256 then text else text[..256])
    case Stringer(text) => kept == Words(if |text| <= 256 then text else text[..256])
    case Other(text) => kept == Words(if |text| <= 256 then text else text[..256])
  }

  /** Of metadata exactly the entries that name no secret are kept, with their values; none at all is nil. */
  lemma MetadataIsSafe(e: Event, random: string, now: Time)
    ensures var (given, kept) := (e.metadata, Prepared(e, random, now).metadata);
      && (kept.NilMetadata? <==> given.NilMetadata? || given.entries == map[])
      && (given.Entries? && kept.Entries? ==>
            && (forall k :: k in kept.entries <==> k in given.entries && !NamesSecret(k))
            && (forall k :: k in kept.entries ==> ValueKept(given.entries[k], kept.entries[k])))
  {
    hide ToUpper, ToLower, TrimSpace, NamesSecret, Sensitive;
    if e.metadata.Entries? {
      forall k ensures Sensitive(k) <==> NamesSecret(k) { SensitiveNamesSecret(k); }
    }
  }

  /** Preparation fills in what is missing, and changes of the rest only case, outer white space and length. */
  lemma PreparationKeeps(e: Event, random: string, now: Time)
    ensures var p := Prepared(e, random, now);
      && p.action == e.action && p.path == e.path && p.endpoint == e.endpoint && p.statusCode == e.statusCode
      && (e.id != "" ==> p.id == e.id) && (e.id == "" ==> p.id == "audit_" + random)
      && (e.timestamp != ZERO_TIME ==> p.timestamp == e.timestamp) && (e.timestamp == ZERO_TIME ==> p.timestamp == now)
      && (e.actor != "" ==> p.actor == e.actor) && (e.actor == "" ==> p.actor == "anonymous")
      && p.method_ == ToUpper(TrimSpace(e.method_))
      && (e.result != "" ==> p.result == ToLower(TrimSpace(e.result))) && (e.result == "" ==> p.result == "success")
      && p.message <= e.message && |p.message| == (if |e.message| < 512 then |e.message| else 512)
      && p.userAgent <= e.userAgent && |p.userAgent| == if |e.userAgent| < 512 then |e.userAgent| else 512
  {
    SuccessSettles();
    hide TrimSpace, ToUpper, ToLower, Safe;
  }

  /** The row an event is stored as: no metadata text when there are no entries. */
  function StoredForm(e: Event): Event {
    e.(
      userAgent := Truncate(e.userAgent, 512),
      message := Truncate(e.message, 512),
      metadata := if e.metadata.Entries? && e.metadata.entries != map[] then e.metadata else NilMetadata)
  }

  /** A prepared event is stored as it is, but for metadata of which nothing is left. */
  lemma StoredAsPrepared(e: Event, random: string, now: Time)
    ensures var p := Prepared(e, random, now);
      var row := StoredForm(p);
      && row == p.(metadata := row.metadata)
      && (row.metadata == p.metadata || (p.metadata == Entries(map[]) && row.metadata == NilMetadata))
  {
    hide TrimSpace, ToUpper, ToLower, Safe;
  }

  /** A result of nothing but white space is set, yet trims to nothing. */
  predicate BlankResult(e: Event) {
    e.result != "" && TrimSpace(e.result) == ""
  }

  lemma SafeSettles(metadata: Metadata)
    ensures Safe(Safe(metadata)) == Safe(metadata)
      || (Safe(metadata) == Entries(map[]) && Safe(Safe(metadata)) == NilMetadata)
  {
    var once := Safe(metadata);
    if once.Entries? && once.entries != map[] {
      assert Safe(once).entries == once.entries;
    }
  }

  /**
   Preparing a prepared event again changes nothing that is stored, exactly unless
   its result was blank; then the second preparation turns it into a success.
   */
  lemma PreparingTwice(e: Event, r1: string, t1: Time, r2: string, t2: Time)
    requires t1 != ZERO_TIME
    ensures var once := Prepared(e, r1, t1);
      var twice := Prepared(once, r2, t2);
      && (StoredForm(twice) == StoredForm(once) <==> !BlankResult(e))
      && (BlankResult(e) ==> once.result == "" && twice == once.(result := RESULT_SUCCESS, metadata := twice.metadata))
      && (twice.metadata == once.metadata || (once.metadata == Entries(map[]) && twice.metadata == NilMetadata))
  {
    hide TrimSpace, ToUpper, ToLower, Safe;
    SafeSettles(e.metadata);
    TrimUpperSettles(e.method_);
    TrimUpperSettles(e.result);
    SuccessSettles();
    FoldedBlank(e.result);
    FoldedBlank("");
  }

  lemma SuccessSettles()
    ensures TrimSpace(RESULT_SUCCESS) == RESULT_SUCCESS && ToLower(TrimSpace(RESULT_SUCCESS)) == RESULT_SUCCESS
    ensures RESULT_SUCCESS != ""
  {
    assert |RESULT_SUCCESS| == 7;
  }

  lemma FoldedBlank(s: string)
    ensures ToLower(TrimSpace(s)) == "" <==> TrimSpace(s) == ""
    ensures TrimSpace("") == "" && ToLower("") == ""
  {
  }

  // ----- Rollups -----

  function StatusClass(status: int): string {
    if status <= 0 then "" else Decimal(status / 100) + "xx"
  }

  /** One count in the minute of the event. */
  function NewMetricRollup(e: Event): MetricRollup {
    MetricRollup(Truncated(e.timestamp, MINUTE), MINUTE, e.endpoint, e.method_, e.action, e.result,
                 StatusClass(e.statusCode), e.statusCode, 1)
  }

  /** An event is counted once, under its own fields, in the minute that holds it; a code below 1 has no class. */
  lemma CountedOnce(e: Event)
    ensures var r := NewMetricRollup(e);
      && r.count == 1 && r.bucketSize == 60 * SECOND && r.bucketStart % (60 * SECOND) == 0
      && r.bucketStart <= e.timestamp < r.bucketStart + 60 * SECOND
      && r.endpoint == e.endpoint && r.method_ == e.method_ && r.action == e.action && r.result == e.result
      && r.statusCode == e.statusCode && (r.statusClass == "" <==> e.statusCode <= 0)
  {
  }
}
