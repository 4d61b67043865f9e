/**
 * The ticket mapper of the record call: from an inbound event to the body of
 * a ServiceNow incident and the (method, url) the body is sent to.
 */
module Mapper {
  import opened Json
  import opened Seqs

  /** The exceptions that reach the outer handlers of the record call. */
  datatype Exc = HTTPErr(code: int) | URLErr | Other

  datatype Result<+T> = Ok(value: T) | Err(exc: Exc) {
    predicate IsFailure() { Err? }
    function PropagateFailure<U>(): Result<U> requires Err? { Err(exc) }
    function Extract(): T requires Ok? { value }
  }

  /** The instance host name and the table, read from the environment at start-up. */
  datatype Config = Config(instance: string, table: string)

  datatype Method = POST | PATCH

  /** What the record call sends: method, url and the body dict (serialised with json.dumps). */
  datatype Request = Request(verb: Method, url: string, body: Fields)

  /** The reply to the GET that looks an incident up by number. */
  datatype LookupReply =
    | Response(code: int, data: Option<Json>)   // data is None when the reply does not decode
    | LookupRaised(exc: Exc)

  /** The table's collection endpoint. */
  function CollectionUrl(config: Config): (r: string)
    ensures |r| >= 8 && r[..8] == "https://"
  {
    "https://" + config.instance + ".service-now.com/api/now/table/" + config.table
  }

  /**
   * The event body: `payload.get("detail", payload)`, decoded when it is a
   * string; anything but a dict makes the following `.get` raise.
   */
  function Unwrap(payload: Json, codec: Codec): (r: Result<Fields>)
    ensures r.Ok? ==> payload.JObj?
    ensures !payload.JObj? ==> r == Err(Other)
    ensures payload.JObj? && Lookup(payload.fields, "detail").None? ==> r == Ok(payload.fields)
    ensures payload.JObj? && Lookup(payload.fields, "detail").Some? ==>
      var d := Lookup(payload.fields, "detail").value;
      (d.JObj? ==> r == Ok(d.fields)) &&
      (d.JStr? ==> r == if codec.loads(d.s).Some? && codec.loads(d.s).value.JObj? then Ok(codec.loads(d.s).value.fields) else Err(Other)) &&
      (!d.JObj? && !d.JStr? ==> r == Err(Other))
  {
    match payload
    case JObj(outer) =>
      var d := Get(outer, "detail", payload);
      var decoded := if d.JStr? then codec.loads(d.s) else Some(d);
      (match decoded
       case Some(JObj(fields)) => Ok(fields)
       case _ => Err(Other))
    case _ => Err(Other)
  }

  // ----- description -----

  /** The identifier fields left out of the description. */
  predicate Described(field: (string, Json)) {
    field.0 != "sys_id" && field.0 != "number"
  }

  /** The description line of one field. */
  function Line(field: (string, Json), codec: Codec): string {
    "\U{2022} " + field.0 + ": " + Str(field.1, codec)
  }

  function LineOf(codec: Codec): ((string, Json)) -> string {
    field => Line(field, codec)
  }

  /** The description lines of an event body, as a reference definition. */
  function DescriptionLines(detail: Fields, codec: Codec): seq<string> {
    FilterMap(detail, Described, LineOf(codec))
  }

  /** The loop that collects the description lines. */
  method BuildDescriptionLines(detail: Fields, codec: Codec) returns (lines: seq<string>)
    ensures lines == DescriptionLines(detail, codec)
  {
    lines := [];
    for i := 0 to |detail|
      invariant lines == FilterMap(detail[..i], Described, LineOf(codec))
    {
      var (key, value) := detail[i];
      FilterMapSnoc(detail[..i], detail[i], Described, LineOf(codec));
      assert detail[..i + 1] == detail[..i] + [detail[i]];
      if key != "sys_id" && key != "number" {
        lines := lines + ["\U{2022} " + key + ": " + Str(value, codec)];
      }
    }
    assert detail[..|detail|] == detail;
  }

  /** `sep.join(lines)`. */
  function Join(lines: seq<string>, sep: string): string {
    if |lines| == 0 then ""
    else if |lines| == 1 then lines[0]
    else lines[0] + sep + Join(lines[1..], sep)
  }

  /** The description: the lines joined by newlines, or the body's serialisation when there are none. */
  function Description(detail: Fields, codec: Codec): string {
    var lines := DescriptionLines(detail, codec);
    if lines == [] then codec.dumpsUnicode(JObj(detail)) else Join(lines, "\n")
  }

  /** The description has one line per field other than sys_id and number. */
  lemma DescriptionLineCount(detail: Fields, codec: Codec)
    ensures |DescriptionLines(detail, codec)| == Count(detail, Described)
  {
    FilterMapLength(detail, Described, LineOf(codec));
  }

  /**
   * The description keeps field order: a described field's line is preceded
   * by exactly the lines of the described fields before it.
   */
  lemma DescriptionLinesExact(detail: Fields, codec: Codec, i: nat)
    requires i < |detail| && Described(detail[i])
    ensures Count(detail[..i], Described) < |DescriptionLines(detail, codec)|
    ensures DescriptionLines(detail, codec)[Count(detail[..i], Described)] ==
      "\U{2022} " + detail[i].0 + ": " + Str(detail[i].1, codec)
  {
    FilterMapAt(detail, Described, LineOf(codec), i);
  }

  /** Without a described field the description falls back to the body's serialisation. */
  lemma DescriptionFallback(detail: Fields, codec: Codec)
    ensures (forall i :: 0 <= i < |detail| ==> detail[i].0 in {"sys_id", "number"}) <==>
      DescriptionLines(detail, codec) == []
    ensures DescriptionLines(detail, codec) == [] ==> Description(detail, codec) == codec.dumpsUnicode(JObj(detail))
  {
    FilterMapEmpty(detail, Described, LineOf(codec));
  }

  // ----- short description -----

  /** Python's `a or b or c` over the candidates: the first truthy one, if any. */
  function FirstTruthy(vs: seq<Json>): (r: Option<Json>)
    ensures r.None? <==> forall k :: 0 <= k < |vs| ==> !Truthy(vs[k])
    ensures r.Some? ==>
      exists k :: 0 <= k < |vs| && vs[k] == r.value && Truthy(r.value) &&
        forall j :: 0 <= j < k ==> !Truthy(vs[j])
  {
    if vs == [] then None
    else if Truthy(vs[0]) then Some(vs[0])
    else
      var r := FirstTruthy(vs[1..]);
      if r.Some? then
        var k :| 0 <= k < |vs[1..]| && vs[1..][k] == r.value && Truthy(r.value) &&
          forall j :: 0 <= j < k ==> !Truthy(vs[1..][j]);
        assert vs[k + 1] == r.value;
        assert forall j :: 0 <= j < k + 1 ==> !Truthy(vs[j]) by {
          forall j | 0 <= j < k + 1 ensures !Truthy(vs[j]) {
            if j > 0 { assert vs[j] == vs[1..][j - 1]; }
          }
        }
        r
      else
        r
  }

  /** "[source] detail-type" from the outer payload, with its defaults. */
  function FallbackTitle(outer: Fields, codec: Codec): string {
    "[" + Str(Get(outer, "source", JStr("Event")), codec) + "] " +
    Str(Get(outer, "detail-type", JStr("Alert")), codec)
  }

  /** The short description: the first truthy of note, message and title, else the fallback title. */
  function ShortDescription(outer: Fields, detail: Fields, codec: Codec): (r: Json)
    ensures var note, message, title := Get(detail, "note", JNull), Get(detail, "message", JNull), Get(detail, "title", JNull);
      (Truthy(note) ==> r == note) &&
      (!Truthy(note) && Truthy(message) ==> r == message) &&
      (!Truthy(note) && !Truthy(message) && Truthy(title) ==> r == title) &&
      (!Truthy(note) && !Truthy(message) && !Truthy(title) ==> r == JStr(FallbackTitle(outer, codec)))
  {
    var cands := [Get(detail, "note", JNull), Get(detail, "message", JNull), Get(detail, "title", JNull)];
    match FirstTruthy(cands)
    case Some(v) =>
      assert Truthy(cands[0]) ==> v == cands[0];
      assert !Truthy(cands[0]) && Truthy(cands[1]) ==> v == cands[1];
      assert !Truthy(cands[0]) && !Truthy(cands[1]) && Truthy(cands[2]) ==> v == cands[2];
      v
    case None =>
      assert !Truthy(cands[0]) && !Truthy(cands[1]) && !Truthy(cands[2]);
      JStr(FallbackTitle(outer, codec))
  }

  // ----- resolution -----

  /** `detail.get(key, '').upper()`: raises unless the field is absent or a string. */
  function UpperField(detail: Fields, key: string): Result<string> {
    match Lookup(detail, key)
    case None => Ok("")
    case Some(JStr(s)) => Ok(Upper(s))
    case Some(_) => Err(Other)
  }

  predicate ClosingWord(s: string) {
    s == "RESOLVED" || s == "CLOSED"
  }

  /** Whether the event signals that the incident is resolved. */
  function IsResolved(detail: Fields): (r: Result<bool>)
    ensures r.Err? ==> r.exc == Other
  {
    var state :- UpperField(detail, "state");
    var status :- UpperField(detail, "status");
    Ok(ClosingWord(state) || ClosingWord(status) ||
       Truthy(Get(detail, "resolved", JBool(false))) ||
       Truthy(Get(detail, "device_recovered", JBool(false))))
  }

  /** The field is absent or holds a string. */
  predicate TextOrAbsent(detail: Fields, key: string) {
    Lookup(detail, key).None? || Lookup(detail, key).value.JStr?
  }

  /** The string a field holds, or "" when it is absent. */
  function TextOf(detail: Fields, key: string): string {
    match Lookup(detail, key)
    case Some(JStr(s)) => s
    case _ => ""
  }

  predicate SaysClosed(s: string) {
    MatchesIgnoringCase(s, "RESOLVED") || MatchesIgnoringCase(s, "CLOSED")
  }

  /**
   * Resolution is decided without error exactly when state and status are
   * strings or absent; it is then true exactly when either of them reads
   * "resolved" or "closed" in any letter case, or resolved or device_recovered
   * is truthy.
   */
  lemma IsResolvedIff(detail: Fields)
    ensures IsResolved(detail).Ok? <==> TextOrAbsent(detail, "state") && TextOrAbsent(detail, "status")
    ensures IsResolved(detail) == Ok(true) <==>
      TextOrAbsent(detail, "state") && TextOrAbsent(detail, "status") &&
      (SaysClosed(TextOf(detail, "state")) || SaysClosed(TextOf(detail, "status")) ||
       Truthy(Get(detail, "resolved", JBool(false))) || Truthy(Get(detail, "device_recovered", JBool(false))))
  {
    var state, status := TextOf(detail, "state"), TextOf(detail, "status");
    UpperMatches(state, "RESOLVED");
    UpperMatches(state, "CLOSED");
    UpperMatches(status, "RESOLVED");
    UpperMatches(status, "CLOSED");
    if TextOrAbsent(detail, "state") {
      assert UpperField(detail, "state") == Ok(Upper(state));
    }
    if TextOrAbsent(detail, "status") {
      assert UpperField(detail, "status") == Ok(Upper(status));
    }
  }

  // ----- body -----

  /** The fields a resolution event adds: closed state, the ITIL caller and the resolution code. */
  const ClosureFields: Fields := [("state", JInt(7)), ("caller_id", JStr("ITIL User")), ("resolution_code", JStr("Solved"))]

  /** The body dict built from its parts. */
  function BodyOf(short: Json, description: string, resolved: bool): Fields {
    var base := [("short_description", short), ("description", JStr(description))];
    if resolved then base + ClosureFields else base
  }

  /**
   * The body dict of the request, or the exception raised while deciding
   * resolution: it holds the short description and the description, and the
   * closing fields (state 7, caller "ITIL User", resolution code "Solved")
   * exactly when the event signals resolution; otherwise nothing else.
   */
  function Body(outer: Fields, detail: Fields, codec: Codec): (r: Result<Fields>)
    ensures r.Ok? <==> IsResolved(detail).Ok?
    ensures r.Ok? ==> r.value == BodyOf(ShortDescription(outer, detail, codec), Description(detail, codec), IsResolved(detail).value)
    ensures r.Ok? ==>
      Lookup(r.value, "short_description") == Some(ShortDescription(outer, detail, codec)) &&
      Lookup(r.value, "description") == Some(JStr(Description(detail, codec)))
    ensures r.Ok? ==>
      (IsResolved(detail) == Ok(true) <==> Lookup(r.value, "state") == Some(JInt(7))) &&
      (IsResolved(detail) == Ok(true) <==> Lookup(r.value, "caller_id") == Some(JStr("ITIL User"))) &&
      (IsResolved(detail) == Ok(true) <==> Lookup(r.value, "resolution_code") == Some(JStr("Solved"))) &&
      (IsResolved(detail) == Ok(false) <==> |r.value| == 2)
  {
    var resolved :- IsResolved(detail);
    var short, description := ShortDescription(outer, detail, codec), Description(detail, codec);
    BodyShape(short, description, resolved);
    Ok(BodyOf(short, description, resolved))
  }

  /**
   * The body always holds the short description and the description, and it
   * carries state 7, caller "ITIL User" and resolution code "Solved" exactly
   * when the event signals resolution; otherwise it has no other field.
   */
  lemma BodyShape(short: Json, description: string, resolved: bool)
    ensures var b := BodyOf(short, description, resolved);
      Lookup(b, "short_description") == Some(short) &&
      Lookup(b, "description") == Some(JStr(description)) &&
      (resolved <==> Lookup(b, "state") == Some(JInt(7))) &&
      (resolved <==> Lookup(b, "caller_id") == Some(JStr("ITIL User"))) &&
      (resolved <==> Lookup(b, "resolution_code") == Some(JStr("Solved"))) &&
      (resolved <==> |b| == 5) && (!resolved <==> |b| == 2)
  {
    var b := BodyOf(short, description, resolved);
    assert b[0] == ("short_description", short) && b[1] == ("description", JStr(description));
    if resolved {
      LookupAt(b, "state", 2);
      LookupAt(b, "caller_id", 3);
      LookupAt(b, "resolution_code", 4);
    } else {
      assert Lookup(b, "state").None? && Lookup(b, "caller_id").None? && Lookup(b, "resolution_code").None?;
    }
  }

  // ----- target -----

  /**
   * The sys_id the number lookup found: Some(id) to update it, None to fall
   * back to creating, or the exception that escapes. Only an HTTPError is
   * caught here; a reply other than 200 also falls back to creating.
   */
  function FoundSysId(reply: LookupReply): Result<Option<Json>> {
    match reply
    case LookupRaised(HTTPErr(_)) => Ok(None)
    case LookupRaised(e) => Err(e)
    case Response(code, data) =>
      if code != 200 then Ok(None)
      else match data
        case Some(JObj(resp)) =>
          var records := Get(resp, "result", JArr([]));
          if !Sized(records) then Err(Other)     // len(records) in the log line raises
          else if !Truthy(records) then Ok(None)
          else (match records
            case JArr(items) =>
              (match items[0]
               case JObj(rec) =>
                 (match Lookup(rec, "sys_id")
                  case Some(id) => Ok(Some(id))
                  case None => Err(Other))
               case _ => Err(Other))
            case _ => Err(Other))                // records[0] of a str or a dict
        case _ => Err(Other)
  }

  /** The method and url: PATCH by sys_id, else PATCH by the looked-up sys_id, else POST. */
  function Target(detail: Fields, config: Config, lookup: LookupReply, codec: Codec): (r: Result<(Method, string)>)
    ensures r.Ok? ==> |CollectionUrl(config)| <= |r.value.1| && r.value.1[..|CollectionUrl(config)|] == CollectionUrl(config)
    ensures r.Ok? ==> (r.value.0 == POST <==> r.value.1 == CollectionUrl(config))
  {
    var base := CollectionUrl(config);
    var sysId := Get(detail, "sys_id", JNull);
    if Truthy(sysId) then Ok((PATCH, base + "/" + Str(sysId, codec)))
    else if Truthy(Get(detail, "number", JNull)) then
      var found :- FoundSysId(lookup);
      Ok(match found
         case Some(id) => (PATCH, base + "/" + Str(id, codec))
         case None => (POST, base))
    else Ok((POST, base))
  }

  /** A truthy sys_id decides the target alone: PATCH to it, whatever the number and the lookup reply. */
  lemma SysIdWins(detail: Fields, config: Config, l1: LookupReply, l2: LookupReply, codec: Codec)
    requires Truthy(Get(detail, "sys_id", JNull))
    ensures Target(detail, config, l1, codec) == Target(detail, config, l2, codec) ==
      Ok((PATCH, CollectionUrl(config) + "/" + Str(Get(detail, "sys_id", JNull), codec)))
  {
  }

  /** Neither a sys_id nor a number: POST to the collection, whatever the lookup reply. */
  lemma NoIdentifierCreates(detail: Fields, config: Config, lookup: LookupReply, codec: Codec)
    requires !Truthy(Get(detail, "sys_id", JNull)) && !Truthy(Get(detail, "number", JNull))
    ensures Target(detail, config, lookup, codec) == Ok((POST, CollectionUrl(config)))
  {
  }

  /** The lookup reply carries a non-empty record list whose first record has a sys_id. */
  predicate FoundRecord(lookup: LookupReply) {
    lookup.Response? && lookup.code == 200 && lookup.data.Some? && lookup.data.value.JObj? &&
    var records := Get(lookup.data.value.fields, "result", JArr([]));
    records.JArr? && records.items != [] && records.items[0].JObj? &&
    Lookup(records.items[0].fields, "sys_id").Some?
  }

  /** The lookup reply says there is no such incident, or failed with an HTTPError. */
  predicate NotFound(lookup: LookupReply) {
    match lookup
    case LookupRaised(e) => e.HTTPErr?
    case Response(code, data) =>
      code != 200 ||
      (data.Some? && data.value.JObj? &&
       var records := Get(data.value.fields, "result", JArr([]));
       Sized(records) && !Truthy(records))
  }

  /**
   * With no sys_id but a number, the target is PATCH to the found sys_id
   * exactly when the lookup found a record, POST exactly when it found none
   * or raised an HTTPError, and every other reply makes the call fail with the
   * exception the lookup raised (UnexpectedError for a malformed reply).
   */
  lemma NumberLookup(detail: Fields, config: Config, lookup: LookupReply, codec: Codec)
    requires !Truthy(Get(detail, "sys_id", JNull)) && Truthy(Get(detail, "number", JNull))
    ensures FoundRecord(lookup) ==>
      var id := Lookup(Get(lookup.data.value.fields, "result", JArr([])).items[0].fields, "sys_id").value;
      Target(detail, config, lookup, codec) == Ok((PATCH, CollectionUrl(config) + "/" + Str(id, codec)))
    ensures Target(detail, config, lookup, codec) == Ok((POST, CollectionUrl(config))) <==> NotFound(lookup)
    ensures Target(detail, config, lookup, codec).Err? <==> !FoundRecord(lookup) && !NotFound(lookup)
    ensures lookup.LookupRaised? && !lookup.exc.HTTPErr? ==> Target(detail, config, lookup, codec) == Err(lookup.exc)
  {
    var base := CollectionUrl(config);
    if FoundRecord(lookup) {
      assert !NotFound(lookup);
      var id := Lookup(Get(lookup.data.value.fields, "result", JArr([])).items[0].fields, "sys_id").value;
      assert FoundSysId(lookup) == Ok(Some(id));
      // a PATCH url is longer than the collection url
      assert |base + "/" + Str(id, codec)| > |base|;
    }
  }

  // ----- the mapped request -----

  /** The request the record call sends, or the exception raised on the way to it. */
  function Plan(payload: Json, config: Config, codec: Codec, lookup: LookupReply): (r: Result<Request>)
    ensures r.Ok? ==> |CollectionUrl(config)| <= |r.value.url| && r.value.url[..|CollectionUrl(config)|] == CollectionUrl(config)
    ensures r.Ok? ==> (r.value.verb == POST <==> r.value.url == CollectionUrl(config))
  {
    var detail :- Unwrap(payload, codec);
    var body :- Body(payload.fields, detail, codec);
    var target :- Target(detail, config, lookup, codec);
    Ok(Request(target.0, target.1, body))
  }

  /**
   * A mapped request carries the event's short description and description,
   * and the closing fields exactly when the event signals resolution.
   */
  lemma PlanBody(payload: Json, config: Config, codec: Codec, lookup: LookupReply)
    requires Plan(payload, config, codec, lookup).Ok?
    ensures var detail, body := Unwrap(payload, codec).value, Plan(payload, config, codec, lookup).value.body;
      Lookup(body, "short_description") == Some(ShortDescription(payload.fields, detail, codec)) &&
      Lookup(body, "description") == Some(JStr(Description(detail, codec))) &&
      (IsResolved(detail) == Ok(true) <==> Lookup(body, "state") == Some(JInt(7))) &&
      (IsResolved(detail) == Ok(true) <==> Lookup(body, "caller_id") == Some(JStr("ITIL User"))) &&
      (IsResolved(detail) == Ok(true) <==> Lookup(body, "resolution_code") == Some(JStr("Solved"))) &&
      (IsResolved(detail) == Ok(false) <==> |body| == 2)
  {
    var detail := Unwrap(payload, codec).value;
    assert Plan(payload, config, codec, lookup).value.body == Body(payload.fields, detail, codec).value;
  }

  /** The event maps without error up to the number lookup, and that lookup is made. */
  predicate LooksUpNumber(payload: Json, codec: Codec) {
    Unwrap(payload, codec).Ok? && IsResolved(Unwrap(payload, codec).value).Ok? &&
    !Truthy(Get(Unwrap(payload, codec).value, "sys_id", JNull)) &&
    Truthy(Get(Unwrap(payload, codec).value, "number", JNull))
  }

  /**
   * Mapping never fails with an HTTPError; it fails with a URLError or other
   * network exception exactly when the number lookup is made and raises it,
   * and otherwise only with an unexpected error.
   */
  lemma PlanErrors(payload: Json, config: Config, codec: Codec, lookup: LookupReply)
    ensures Plan(payload, config, codec, lookup).Err? ==> !Plan(payload, config, codec, lookup).exc.HTTPErr?
    ensures Plan(payload, config, codec, lookup).Err? && Plan(payload, config, codec, lookup).exc != Other ==>
      LooksUpNumber(payload, codec) && lookup == LookupRaised(Plan(payload, config, codec, lookup).exc)
    ensures LooksUpNumber(payload, codec) && lookup.LookupRaised? && !lookup.exc.HTTPErr? ==>
      Plan(payload, config, codec, lookup) == Err(lookup.exc)
  {
    if Unwrap(payload, codec).Ok? {
      var detail := Unwrap(payload, codec).value;
      if IsResolved(detail).Ok? && !Truthy(Get(detail, "sys_id", JNull)) && Truthy(Get(detail, "number", JNull)) {
        NumberLookup(detail, config, lookup, codec);
      }
    }
  }
}
