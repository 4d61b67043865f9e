/**
 * The record call as a whole: obtain a token, map the event to a request,
 * send it, and turn what happened into a (success, message) pair. The token
 * exchange, the lookup GET and the final request are inputs to the model.
 */
module Client {
  import opened Json
  import opened Mapper
  import opened Seqs

  /** What the final create or update request returned. */
  datatype Reply = Status(code: int) | Raised(exc: Exc)

  /** What the token provider returned: a bearer token, or the exception it raised. */
  datatype TokenReply = Token(value: string) | TokenRaised(exc: Exc)

  /** The results of the three network exchanges one record call may make. */
  datatype Io = Io(token: TokenReply, lookup: LookupReply, reply: Reply)

  /** The message each outer exception handler returns. */
  function Failed(e: Exc): (bool, string) {
    (false, match e
            case HTTPErr(code) => "HTTPError: " + IntToDecimal(code)
            case URLErr => "URLError"
            case Other => "UnexpectedError")
  }

  /** Each exception has its own message: a message names the exception that was caught. */
  lemma FailedInjective(e1: Exc, e2: Exc)
    ensures Failed(e1) == Failed(e2) ==> e1 == e2
  {
    var m1, m2 := Failed(e1).1, Failed(e2).1;
    if Failed(e1) == Failed(e2) {
      if e1.HTTPErr? && e2.HTTPErr? {
        assert m1[11..] == IntToDecimal(e1.code) && m2[11..] == IntToDecimal(e2.code);
        IntToDecimalInjective(e1.code, e2.code);
      } else {
        assert m1[0] == m2[0] && m1[1] == m2[1];
      }
    }
  }

  /** The result of the final request, sent with the given method. */
  function Outcome(verb: Method, reply: Reply): (r: (bool, string))
    ensures r.0 <==> reply.Status? && 200 <= reply.code < 300
    ensures r.0 && verb == POST ==> r.1 == "ServiceNow record created"
    ensures r.0 && verb == PATCH ==> r.1 == "ServiceNow record updated"
    ensures reply.Status? && !(200 <= reply.code < 300) ==> r.1 == "ServiceNow error: HTTP " + IntToDecimal(reply.code)
    ensures reply.Raised? ==> r == Failed(reply.exc)
  {
    match reply
    case Status(code) =>
      if 200 <= code < 300 then
        (true, "ServiceNow record " + (if verb != POST then "updated" else "created"))
      else
        (false, "ServiceNow error: HTTP " + IntToDecimal(code))
    case Raised(e) => Failed(e)
  }

  /** The record call's result, as a specification. */
  function Submit(payload: Json, config: Config, codec: Codec, io: Io): (bool, string) {
    match io.token
    case TokenRaised(e) => Failed(e)
    case Token(_) =>
      match Plan(payload, config, codec, io.lookup)
      case Err(e) => Failed(e)
      case Ok(request) => Outcome(request.verb, io.reply)
  }

  /**
   * The record call succeeds exactly when the token was obtained, the event
   * mapped to a request and the request got a 2xx status; a failure of the
   * token exchange or of the mapping comes back as the failure pair of its
   * exception.
   */
  lemma SubmitSucceedsIff(payload: Json, config: Config, codec: Codec, io: Io)
    ensures Submit(payload, config, codec, io).0 <==>
      io.token.Token? && Plan(payload, config, codec, io.lookup).Ok? &&
      io.reply.Status? && 200 <= io.reply.code < 300
    ensures io.token.TokenRaised? ==> Submit(payload, config, codec, io) == Failed(io.token.exc)
    ensures io.token.Token? && Plan(payload, config, codec, io.lookup).Err? ==>
      Submit(payload, config, codec, io) == Failed(Plan(payload, config, codec, io.lookup).exc)
  {
  }

  /**
   * The record call answers with an exception's message exactly when that
   * exception was raised by the token exchange, on the way to the request, or
   * by the final request; no status reply produces such a message.
   */
  lemma SubmitFailedIff(payload: Json, config: Config, codec: Codec, io: Io, e: Exc)
    ensures Submit(payload, config, codec, io) == Failed(e) <==>
      io.token == TokenRaised(e) ||
      (io.token.Token? && Plan(payload, config, codec, io.lookup) == Err(e)) ||
      (io.token.Token? && Plan(payload, config, codec, io.lookup).Ok? && io.reply == Raised(e))
  {
    var plan := Plan(payload, config, codec, io.lookup);
    match io.token
    case TokenRaised(e2) => FailedInjective(e, e2);
    case Token(_) =>
      match plan
      case Err(e2) => FailedInjective(e, e2);
      case Ok(request) =>
        match io.reply
        case Raised(e2) => FailedInjective(e, e2);
        case Status(code) =>
          var r := Outcome(request.verb, io.reply);
          if !r.0 {
            assert r.1[0] == 'S' && Failed(e).1[0] != 'S';
          }
  }

  /**
   * The three failure messages of the record call and where each comes
   * from. "URLError" is a URLError of the token exchange, of the number
   * lookup or of the final request. "HTTPError: N" is an HTTPError with
   * status N of the token exchange or the final request only: an HTTPError
   * of the lookup falls back to creating. "UnexpectedError" is any other
   * exception, of the token exchange, of the mapping or of the final request.
   */
  lemma SubmitMessages(payload: Json, config: Config, codec: Codec, io: Io, n: int)
    ensures Submit(payload, config, codec, io) == (false, "URLError") <==>
      io.token == TokenRaised(URLErr) ||
      (io.token.Token? && LooksUpNumber(payload, codec) && io.lookup == LookupRaised(URLErr)) ||
      (io.token.Token? && Plan(payload, config, codec, io.lookup).Ok? && io.reply == Raised(URLErr))
    ensures Submit(payload, config, codec, io) == (false, "HTTPError: " + IntToDecimal(n)) <==>
      io.token == TokenRaised(HTTPErr(n)) ||
      (io.token.Token? && Plan(payload, config, codec, io.lookup).Ok? && io.reply == Raised(HTTPErr(n)))
    ensures Submit(payload, config, codec, io) == (false, "UnexpectedError") <==>
      io.token == TokenRaised(Other) ||
      (io.token.Token? && Plan(payload, config, codec, io.lookup) == Err(Other)) ||
      (io.token.Token? && Plan(payload, config, codec, io.lookup).Ok? && io.reply == Raised(Other))
  {
    SubmitFailedIff(payload, config, codec, io, URLErr);
    SubmitFailedIff(payload, config, codec, io, HTTPErr(n));
    SubmitFailedIff(payload, config, codec, io, Other);
    PlanErrors(payload, config, codec, io.lookup);
  }

  /**
   * A lookup that raises anything but an HTTPError is not a fall-back to
   * creating: the record call fails with that exception's message.
   */
  lemma LookupErrorFails(payload: Json, config: Config, codec: Codec, io: Io)
    requires io.token.Token? && io.lookup.LookupRaised? && !io.lookup.exc.HTTPErr?
    requires Unwrap(payload, codec).Ok?
    requires var detail := Unwrap(payload, codec).value;
      IsResolved(detail).Ok? && !Truthy(Get(detail, "sys_id", JNull)) && Truthy(Get(detail, "number", JNull))
    ensures Submit(payload, config, codec, io) == Failed(io.lookup.exc)
    ensures io.lookup.exc == URLErr ==> Submit(payload, config, codec, io) == (false, "URLError")
  {
    var detail := Unwrap(payload, codec).value;
    NumberLookup(detail, config, io.lookup, codec);
  }

  /** A state or status that is neither absent nor a string ends the call with UnexpectedError. */
  lemma NonTextStateFails(payload: Json, config: Config, codec: Codec, io: Io)
    requires io.token.Token? && Unwrap(payload, codec).Ok?
    requires var detail := Unwrap(payload, codec).value;
      !TextOrAbsent(detail, "state") || !TextOrAbsent(detail, "status")
    ensures Submit(payload, config, codec, io) == (false, "UnexpectedError")
  {
    IsResolvedIff(Unwrap(payload, codec).value);
  }

  /**
   * The record call, step by step: the description lines are collected in a
   * loop, the body dict grows in place, and method and url are reassigned as
   * the identifiers are examined.
   */
  method CreateServiceNowRecord(payload: Json, config: Config, codec: Codec, io: Io)
    returns (success: bool, message: string)
    ensures (success, message) == Submit(payload, config, codec, io)
  {
    if io.token.TokenRaised? {
      success, message := Failed(io.token.exc).0, Failed(io.token.exc).1;
      return;
    }
    var unwrapped := Unwrap(payload, codec);
    if unwrapped.Err? {
      success, message := false, "UnexpectedError";
      return;
    }
    var detail := unwrapped.value;

    var lines := BuildDescriptionLines(detail, codec);
    var description := if lines != [] then Join(lines, "\n") else codec.dumpsUnicode(JObj(detail));
    var short := ShortDescription(payload.fields, detail, codec);
    var body: Fields := [("short_description", short), ("description", JStr(description))];

    var resolved := IsResolved(detail);
    if resolved.Err? {
      success, message := false, "UnexpectedError";
      return;
    }
    if resolved.value {
      body := body + [("state", JInt(7))];
      body := body + [("caller_id", JStr("ITIL User"))];
      body := body + [("resolution_code", JStr("Solved"))];
    }
    assert body == BodyOf(short, description, resolved.value);

    var verb := POST;
    var url := CollectionUrl(config);
    var sysId := Get(detail, "sys_id", JNull);
    if Truthy(sysId) {
      verb := PATCH;
      url := url + "/" + Str(sysId, codec);
    } else if Truthy(Get(detail, "number", JNull)) {
      var found := FoundSysId(io.lookup);
      if found.Err? {
        success, message := Failed(found.exc).0, Failed(found.exc).1;
        return;
      }
      if found.value.Some? {
        verb := PATCH;
        url := url + "/" + Str(found.value.value, codec);
      }
    }
    assert Target(detail, config, io.lookup, codec) == Ok((verb, url));
    assert Plan(payload, config, codec, io.lookup) == Ok(Request(verb, url, body));

    success, message := Outcome(verb, io.reply).0, Outcome(verb, io.reply).1;
  }

  // ----- scenarios -----

  /** The event body of scenario A: a note and a sys_id, with no detail wrapper. */
  function NoteAndSysId(): Fields {
    [("note", JStr("disk full")), ("sys_id", JStr("abc123"))]
  }

  lemma NoteAndSysIdFields()
    ensures Lookup(NoteAndSysId(), "detail").None?
    ensures Lookup(NoteAndSysId(), "state").None? && Lookup(NoteAndSysId(), "status").None?
    ensures Lookup(NoteAndSysId(), "resolved").None? && Lookup(NoteAndSysId(), "device_recovered").None?
    ensures Get(NoteAndSysId(), "note", JNull) == JStr("disk full")
    ensures Get(NoteAndSysId(), "sys_id", JNull) == JStr("abc123")
  {
    var d := NoteAndSysId();
    assert d[1..] == [("sys_id", JStr("abc123"))];
    assert d[1..][1..] == [];
  }

  lemma NoteAndSysIdDescription(codec: Codec)
    ensures Description(NoteAndSysId(), codec) == "\U{2022} note: disk full"
  {
    var note := ("note", JStr("disk full"));
    FilterMapSnoc([], note, Described, LineOf(codec));
    FilterMapSnoc([note], ("sys_id", JStr("abc123")), Described, LineOf(codec));
    assert [] + [note] == [note] && [note] + [("sys_id", JStr("abc123"))] == NoteAndSysId();
    assert LineOf(codec)(note) == "\U{2022} note: disk full";
  }

  /** A body with a note and a sys_id is a PATCH to that sys_id, titled by the note. */
  lemma ScenarioUpdateBySysId(config: Config, codec: Codec, lookup: LookupReply)
    ensures Plan(JObj(NoteAndSysId()), config, codec, lookup) ==
      Ok(Request(PATCH, CollectionUrl(config) + "/abc123",
                 [("short_description", JStr("disk full")), ("description", JStr("\U{2022} note: disk full"))]))
  {
    var detail := NoteAndSysId();
    NoteAndSysIdFields();
    NoteAndSysIdDescription(codec);
    assert Unwrap(JObj(detail), codec) == Ok(detail);
    assert IsResolved(detail) == Ok(false);
    assert ShortDescription(detail, detail, codec) == JStr("disk full");
    assert Body(detail, detail, codec) == Ok(BodyOf(JStr("disk full"), "\U{2022} note: disk full", false));
    assert Truthy(Get(detail, "sys_id", JNull)) && Str(Get(detail, "sys_id", JNull), codec) == "abc123";
    SysIdWins(detail, config, lookup, lookup, codec);
    assert BodyOf(JStr("disk full"), "\U{2022} note: disk full", false) ==
      [("short_description", JStr("disk full")), ("description", JStr("\U{2022} note: disk full"))];
    assert JObj(detail).fields == detail;
    assert CollectionUrl(config) + "/" + "abc123" == CollectionUrl(config) + "/abc123";
    assert Plan(JObj(detail), config, codec, lookup) ==
      Ok(Request(PATCH, CollectionUrl(config) + "/abc123", BodyOf(JStr("disk full"), "\U{2022} note: disk full", false)));
  }

  /** The event body of scenarios B and C: only an incident number. */
  function NumberOnly(): Fields {
    [("number", JStr("INC0001"))]
  }

  lemma NumberOnlyFields(codec: Codec)
    ensures Unwrap(JObj(NumberOnly()), codec) == Ok(NumberOnly())
    ensures IsResolved(NumberOnly()) == Ok(false)
    ensures !Truthy(Get(NumberOnly(), "sys_id", JNull)) && Truthy(Get(NumberOnly(), "number", JNull))
  {
    var d := NumberOnly();
    assert d[1..] == [];
    assert Lookup(d, "detail").None? && Lookup(d, "sys_id").None?;
    assert Lookup(d, "state").None? && Lookup(d, "status").None?;
    assert Lookup(d, "resolved").None? && Lookup(d, "device_recovered").None?;
  }

  /** A number the lookup does not find falls back to creating. */
  lemma ScenarioNumberNotFound(config: Config, codec: Codec, reply: Reply)
    requires reply.Status? && 200 <= reply.code < 300
    ensures var payload := JObj([("number", JStr("INC0001"))]);
      var lookup := Response(200, Some(JObj([("result", JArr([]))])));
      Submit(payload, config, codec, Io(Token("t"), lookup, reply)) == (true, "ServiceNow record created")
  {
    var detail := NumberOnly();
    var lookup := Response(200, Some(JObj([("result", JArr([]))])));
    NumberOnlyFields(codec);
    assert Get(lookup.data.value.fields, "result", JArr([])) == JArr([]);
    NumberLookup(detail, config, lookup, codec);
    assert Body(detail, detail, codec).Ok?;
    assert Plan(JObj(detail), config, codec, lookup).value.verb == POST;
  }

  /** A number the lookup finds is an update of the found sys_id. */
  lemma ScenarioNumberFound(config: Config, codec: Codec)
    ensures var payload := JObj([("number", JStr("INC0001"))]);
      var lookup := Response(200, Some(JObj([("result", JArr([JObj([("sys_id", JStr("xyz"))])]))])));
      Plan(payload, config, codec, lookup).Ok? &&
      Plan(payload, config, codec, lookup).value.verb == PATCH &&
      Plan(payload, config, codec, lookup).value.url == CollectionUrl(config) + "/xyz"
  {
    var detail := NumberOnly();
    var found := JObj([("sys_id", JStr("xyz"))]);
    var lookup := Response(200, Some(JObj([("result", JArr([found]))])));
    NumberOnlyFields(codec);
    assert Get(lookup.data.value.fields, "result", JArr([])) == JArr([found]);
    assert Lookup(found.fields, "sys_id") == Some(JStr("xyz"));
    assert FoundRecord(lookup);
    NumberLookup(detail, config, lookup, codec);
    assert CollectionUrl(config) + "/" + "xyz" == CollectionUrl(config) + "/xyz";
    assert Target(detail, config, lookup, codec) == Ok((PATCH, CollectionUrl(config) + "/xyz"));
    assert Body(detail, detail, codec).Ok?;
  }
}
