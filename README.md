# ServiceNow event bridge: a Dafny model of the routing and ticket-mapping logic

The modelled handler is an AWS Lambda function. It turns alert events into ServiceNow incident records.
An invocation is either a single EventBridge event or a batch of SQS records. For each event, the record
call does four things:
- it maps the event to an incident body (short description, description, and the closing fields when the
  event signals resolution);
- it chooses between creating (POST to the table) and updating (PATCH by `sys_id`, or by the `sys_id`
  found when looking up `number`);
- it sends the request;
- it reports `(success, message)`.

The router then acts on that result. A failed EventBridge event is put on a retry queue. For an SQS batch,
the router reports the messageIds of the records that failed.

The model keeps the branches of that logic, with one exception named under "## Left out": an exception raised
while the HTTPError handler reads the error body. Network and AWS effects are inputs instead:
- the token exchange, the number lookup and the final request are values of the datatypes `TokenReply`,
  `LookupReply` and `Reply` in an `Io` record;
- on the routing side, the record call is an oracle `create: Json -> bool`, and sending to the queue is a
  function `send: Json -> Json` from the message to the message id;
- `json.dumps` (default and with `ensure_ascii=False`), `json.loads` and Python's `repr` of nested values are
  the functions of a `Codec`;
- the instance and the table are a `Config`.

Modules:
- `Json`: decoded values, Python truthiness, `dict.get`, `len`, `str()` and `str.upper()`.
- `Seqs`: the order-preserving filter behind both the description loop and the batch loop.
- `Mapper`: from an event to a `Request`.
- `Client`: the whole record call, as the function `Submit` and the imperative method
  `CreateServiceNowRecord` proved equal to it.
- `Router`: `is_sqs_event`, the two paths and the entry point.

Where a naive reading of the handler differs from what it does, the model follows the code:
- The docstring of `handle_sqs_event` (handler.py:253) says a failed record makes the handler raise. The code
  instead reports the record in `batchItemFailures` and carries on with the batch.
- `resolved` and `device_recovered` are tested for truthiness, not for `== true`.
- The short description takes the first truthy value of note, message and title. So `0` and `false` are
  skipped as well as empty values, and a truthy non-string value (a number, say) becomes the short
  description as it is.
- Only an HTTPError from the number lookup falls back to creating. Any other lookup failure reaches the
  outer handlers. So does a 200 reply that does not decode or has a malformed `result`. The call then
  fails; it does not create.
- `len(records)` in the lookup's log line raises when `result` is null, a number or a boolean. The call
  then fails with UnexpectedError.
- Failures are not always turned into a failure pair, or into a failure entry: in the batch handler, a body that decodes to
  something other than a dict raises out of the loop. So does a record with no string `body`, a failed
  record with no `messageId`, or a record that is not a dict. All of these abort the whole invocation.
  The model gives these an explicit result, `None`. It does not exclude them with a precondition.
- `is_sqs_event` itself raises in some cases (`len` of a null `Records`, `.get` on a first record that is
  not a dict). `LambdaHandler` then returns `None` as its response.
- The EventBridge result always says `"servicenow": "created"`, even when the record was updated.

## Model

| member | source | states |
|---|---|---|
| `Json.UpperMatches` | lambda_serviceNow-main/lambda/handler.py:136-145 | comparing `s.upper()` with an upper-case word is the same as comparing `s` with that word ignoring ASCII letter case |
| `Seqs.FilterMapAt` | lambda_serviceNow-main/lambda/handler.py:112-116 | an element kept by the filter is output at the position given by the number of kept elements before it |
| `Seqs.FilterMapLength` | lambda_serviceNow-main/lambda/handler.py:112-116 | the output has one element per kept input element |
| `Seqs.FilterMapEmpty` | lambda_serviceNow-main/lambda/handler.py:118 | the output is empty exactly when no input element is kept |
| `Seqs.RankIncreasing` | lambda_serviceNow-main/lambda/handler.py:256-272 | kept elements come out in input order |
| `Mapper.CollectionUrl` | lambda_serviceNow-main/lambda/handler.py:75-77 | the collection endpoint is an https URL |
| `Mapper.Unwrap` | lambda_serviceNow-main/lambda/handler.py:104-108 | the event body is `detail`, decoded when it is a string, or the payload itself when there is no `detail`; a payload or detail that is not a dict raises (UnexpectedError) |
| `Mapper.BuildDescriptionLines` | lambda_serviceNow-main/lambda/handler.py:112-116 | the loop collects exactly the filtered lines `"• key: value"` of the fields other than sys_id and number |
| `Mapper.DescriptionLineCount` | lambda_serviceNow-main/lambda/handler.py:112-116 | the description has exactly one line per field other than sys_id and number |
| `Mapper.DescriptionLinesExact` | lambda_serviceNow-main/lambda/handler.py:112-116 | a described field's line `"• {key}: {value}"` comes after exactly the lines of the described fields before it, so lines keep field order |
| `Mapper.DescriptionFallback` | lambda_serviceNow-main/lambda/handler.py:118 | there are no lines exactly when every key is sys_id or number, and the description is then the serialisation of the body |
| `Mapper.FirstTruthy` | lambda_serviceNow-main/lambda/handler.py:121-125 | the result is the first truthy candidate, every candidate before it being falsy, or nothing when all are falsy |
| `Mapper.ShortDescription` | lambda_serviceNow-main/lambda/handler.py:121-126 | note if truthy, else message if truthy, else title if truthy, else `"[source] detail-type"` from the outer payload with defaults Event and Alert |
| `Mapper.IsResolved` | lambda_serviceNow-main/lambda/handler.py:136-137 | evaluating resolution can only raise a non-HTTP, non-URL error (UnexpectedError) |
| `Mapper.IsResolvedIff` | lambda_serviceNow-main/lambda/handler.py:136-148 | resolution is decided without raising exactly when state and status are absent or strings; it is then true exactly when either reads resolved or closed in any case, or resolved or device_recovered is truthy |
| `Mapper.Body` | lambda_serviceNow-main/lambda/handler.py:129-153 | the body exists exactly when resolution is decided; it holds the short description and the description, holds state 7, caller_id "ITIL User" and resolution_code "Solved" exactly when the event is resolved, and has only the two base fields when it is not |
| `Mapper.BodyShape` | lambda_serviceNow-main/lambda/handler.py:129-153 | the body holds short_description and description, and holds state 7, caller_id "ITIL User" and resolution_code "Solved" exactly when resolved; otherwise only the two fields |
| `Mapper.Target` | lambda_serviceNow-main/lambda/handler.py:157-190 | every target URL extends the collection URL, and the method is POST exactly when the URL is the collection itself |
| `Mapper.SysIdWins` | lambda_serviceNow-main/lambda/handler.py:161-164 | a truthy sys_id gives PATCH to collection/sys_id whatever the number and whatever the lookup would reply |
| `Mapper.NoIdentifierCreates` | lambda_serviceNow-main/lambda/handler.py:157-158 | with neither a truthy sys_id nor a truthy number the target is POST to the collection |
| `Mapper.NumberLookup` | lambda_serviceNow-main/lambda/handler.py:166-188 | with only a number: PATCH to the found sys_id exactly when the lookup returns 200 with a non-empty result list; POST exactly when the result is empty, the code is not 200 or the lookup raised HTTPError; every other reply ends the call with its exception |
| `Mapper.PlanBody` | lambda_serviceNow-main/lambda/handler.py:129-153 | a mapped request's body holds the event's short description and description, and the three closing fields exactly when the event is resolved; otherwise only the two base fields |
| `Mapper.PlanErrors` | lambda_serviceNow-main/lambda/handler.py:103-190 | mapping never fails with an HTTPError; it fails with another network exception exactly when the number lookup is made and raises it, and otherwise only with an unexpected error |
| `Mapper.Plan` | lambda_serviceNow-main/lambda/handler.py:103-192 | the request's URL extends the collection URL, and its method is POST exactly when it targets the collection |
| `Client.SubmitFailedIff` | lambda_serviceNow-main/lambda/handler.py:205-214 | the call answers with an exception's failure message exactly when that exception was raised by the token exchange, by the mapping or by the final request; no status reply gives such a message |
| `Client.SubmitMessages` | lambda_serviceNow-main/lambda/handler.py:173-214 | "URLError" exactly for a URLError of the token exchange, the number lookup or the final request; "HTTPError: N" exactly for an HTTPError N of the token exchange or the final request, never of the lookup; "UnexpectedError" exactly for any other exception |
| `Client.Outcome` | lambda_serviceNow-main/lambda/handler.py:195-204 | success exactly for a status in [200,300), with message created for POST and updated otherwise; other statuses give `ServiceNow error: HTTP {status}`; exceptions go to their handlers |
| `Client.SubmitSucceedsIff` | lambda_serviceNow-main/lambda/handler.py:93-214 | the record call succeeds exactly when the token is obtained, the event maps to a request and the request gets a 2xx status; a token failure or a mapping failure is reported as the failure pair of its exception |
| `Client.LookupErrorFails` | lambda_serviceNow-main/lambda/handler.py:173-188 | a lookup raising anything but an HTTPError makes the call fail with that exception's message instead of creating |
| `Client.NonTextStateFails` | lambda_serviceNow-main/lambda/handler.py:136-137 | a state or status that is present but not a string makes the call fail with UnexpectedError |
| `Client.CreateServiceNowRecord` | lambda_serviceNow-main/lambda/handler.py:79-214 | the step-by-step record call (description loop, body built in place, method and url reassigned) returns exactly the specified result |
| `Client.ScenarioUpdateBySysId` | lambda_serviceNow-main/lambda/handler.py:161-164 | note "disk full" with sys_id abc123 is a PATCH to collection/abc123 titled "disk full" |
| `Client.ScenarioNumberNotFound` | lambda_serviceNow-main/lambda/handler.py:180-186 | a number whose lookup returns no records is created, reporting "ServiceNow record created" |
| `Client.ScenarioNumberFound` | lambda_serviceNow-main/lambda/handler.py:176-184 | a number whose lookup returns sys_id xyz is a PATCH to collection/xyz |
| `Router.IsSqsEvent` | lambda_serviceNow-main/lambda/handler.py:225-227 | true exactly for a dict with a non-empty Records list whose first element has eventSource "aws:sqs"; raises exactly when Records has no length, or is non-empty without being a list whose first element is a dict |
| `Router.HandleEventBridge` | lambda_serviceNow-main/lambda/handler.py:229-247 | success returns status ok and sends nothing; failure sends exactly one retry message `{retry_source: "sqs", original_event: event}` and returns status queued with the queue's message id |
| `Router.HandleSqsEvent` | lambda_serviceNow-main/lambda/handler.py:249-278 | the batch loop returns the failure entries of exactly the failing records, in record order, or raises when some record makes the loop raise |
| `Router.ProcessRecord` | lambda_serviceNow-main/lambda/handler.py:259-272 | one pass of the batch loop: an undecodable body reports the record as failed by its messageId, a decoded dict is handed to the record call (its `original_event` when truthy) and fails the record when the call fails, and a record that is not a dict, has no string body or decodes to a non-dict raises |
| `Router.BatchMatchesSpec` | lambda_serviceNow-main/lambda/handler.py:256-278 | running the loop over the records stops exactly when some record raises, and otherwise has collected the failure entries of the failing records in record order |
| `Router.SqsFailuresCount` | lambda_serviceNow-main/lambda/handler.py:256-278 | when the batch completes, its batchItemFailures has one entry per failing record and is empty exactly when every record succeeded |
| `Router.SqsFailuresExact` | lambda_serviceNow-main/lambda/handler.py:256-278 | a failing record's `{itemIdentifier: messageId}` entry comes after exactly the entries of the failing records before it, so entries keep record order |
| `Router.RecordFailsIff` | lambda_serviceNow-main/lambda/handler.py:259-272 | a record fails exactly when its body does not decode or the record call on `original_event` (if truthy, else the body) fails, and it is reported by its messageId |
| `Router.RetryRoundTrip` | lambda_serviceNow-main/lambda/handler.py:242-245 | a retry message read back hands the original event to the record call when the event is truthy, and the retry message itself when the event is empty |
| `Router.LambdaHandler` | lambda_serviceNow-main/lambda/handler.py:280-301 | an SQS batch returns the batch result unchanged and sends nothing; any other event takes the EventBridge path and returns statusCode 200 with the serialised result; a raising classification aborts |
| `Router.ScenarioMalformedRecord` | lambda_serviceNow-main/lambda/handler.py:259-265 | a batch of one malformed record and one succeeding record reports only the malformed record's id |
| `Router.ScenarioQueued` | lambda_serviceNow-main/lambda/handler.py:240-247 | a failed EventBridge event is queued once, wrapped as a retry message, and the response carries the queue's message id |

## Left out

- `_get_oauth_token` (Secrets Manager read, client-credentials exchange, base64, the module-level cache) is an input only: a token or the exception the exchange raised.
- The urllib requests are not modelled: the headers, including `Authorization: Bearer {token}`, the 10-second timeouts and the decoding of replies. The lookup query URL (`str(number).strip()` quoted into `sysparm_query`) is not modelled either, because the lookup reply is an input.
- `send_to_sqs` and the boto3 clients are foreign AWS calls; the queue is a function from the message to the id it answers with.
- The environment reads are start-up constants: the instance and the table are a `Config`. The queue URL and the secret name are used only by the calls that are left out.
- `json.dumps`, `json.loads` and Python's `repr` of a nested list or dict are abstract `Codec` functions. `loads` is None where it raises JSONDecodeError. `dumps` is the default call, used for the retry message and the EventBridge response. `dumpsUnicode` is `json.dumps(..., ensure_ascii=False)`, used for the description fallback.
- All logging is left out. The one exception is the `len(records)` inside the log line of the lookup, because it can raise.
- JSON numbers are integers only. Floats are not modelled.
- Json.Upper: models `str.upper()` on the ASCII letters only, since the source's comparison words are ASCII; non-ASCII characters that Python upper-cases into ASCII letters (such as U+017F) are left unmodelled.
- Json.Lookup: takes a key's first binding; a Python dict has unique keys, so the first binding is the only one.
- Client.Failed: the HTTPError handler first reads and UTF-8-decodes the error body. If that raises (a body that is not UTF-8, a time-out while reading), the exception escapes the record call instead of becoming `(False, "HTTPError: N")`. Then the EventBridge invocation raises without queuing a retry, and an SQS batch aborts. The model has no such path: the HTTPError handler always returns its failure pair, and the router's `create` oracle cannot raise.
- Router.HandleEventBridge: the record call is an oracle on the payload, so two calls on the same payload give the same answer; the real call depends on the network each time.
- Router.HandleSqsEvent: a batch that raises part-way is reported only as raising. The tickets already created for earlier records are not part of the model's result.
- Python errors outside the handler's own logic (RecursionError on deep payloads, memory errors) are not modelled.
- `sqs_terraform/lambda_function.py` is not part of this model: it only receives, prints and deletes SQS messages through boto3.
