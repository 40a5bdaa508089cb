# opsgenie-heartbeat, modelled in Dafny

This project models `opsgenie-heartbeat`, a small command-line client. It
registers a named heartbeat with the OpsGenie service, keeps it alive by
sending heartbeat pings, and disables or deletes it at the end. The model
covers the following parts of the client:

- **Argument validation** (`arguments.dfy`, module `Arguments`).
  - The flag tables and their defaults.
  - The command table that maps each command name to a controller operation.
  - The `extractArgs` rules. Both global flags `apiKey` and `name` must be
    non-empty. The interval unit must be empty or one of
    `minutes`/`hours`/`days`.
  - A refusal is a `Failure` that carries the message the program would log
    before exiting.
  - The second message keeps the source's spelling "mintes".
- **Request parameters** (`payloads.dfy`, module `Payloads`).
  - The JSON bodies and query strings each request carries, as
    `map<string, Value>` / `map<string, string>`.
  - Each builder is an imperative method that fills a fresh map key by key.
    It is proved equal to a declarative function, and the shape lemmas state
    what that function holds.
- **Target URLs** (`urls.dfy`, module `Urls`).
  - `createURL` copies the parameters into a multi-valued `url.Values` in the
    map's arbitrary iteration order.
  - It then encodes them in increasing key order, joined by `&`.
  - Both loops are proved against `UrlOf`. The key order is a lexicographic
    order on strings, proved total, antisymmetric and transitive.
- **Response classification** (`responses.dfy`, module `Responses`).
  - How a reply becomes a body or an error, both on the generic path and on
    the fetch path.
  - On the fetch path, status 400 with error code 17 means "the heartbeat
    does not exist".
- **The controller** (`controller.dfy`, module `Controller`).
  - A `Client` object records every request sent and every line logged.
  - Each Go function of the lifecycle is a method that appends to those two
    logs. Each method is proved to append exactly the trace that a
    specification function gives.
  - The lifecycle rules are lemmas about those traces, such as "create once
    when absent" and "send always follows start".

The service's replies are parameters. HTTP, JSON decoding and the clock are
outside the model. A reply is either a transport failure or a status code
with a body, and the body is given as what the two decoders make of it.

The repository holds two near-identical copies of the client:
`script_monitor/src/opsgenie/opsgenie_client.go` (package `opsgenie`) and
`script_monitor/src/opsgenie_client.go` (package `main`). In the modelled part
they behave the same, so one model covers both. The table below cites the
package copy for the operations and the `main` copy for most of the lemmas
about them. The corresponding lines are:

| function | package copy | `main` copy |
|---|---|---|
| startHeartbeatAndSend | 20-23 | 16-19 |
| startHeartbeat | 25-36 | 21-32 |
| StartHeartbeatLoop / startHeartbeatLoop | 39-42 | 34-37 |
| getHeartbeat | 44-53 | 39-48 |
| checkHeartbeatError | 55-65 | 50-60 |
| createHeartbeat | 67-75 | 62-70 |
| addHeartbeat | 77-79 | 72-74 |
| updateHeartbeatWithEnabledTrue | 81-86 | 76-81 |
| sendHeartbeat | 88-90 | 83-85 |
| sendHeartbeatLoop | 92-96 | 87-91 |
| stopHeartbeat | 98-104 | 93-99 |
| deleteHeartbeat | 106-108 | 101-103 |
| disableHeartbeat | 110-112 | 105-107 |
| mandatoryContentParams | 114-119 | 109-114 |
| allContentParams | 121-133 | 116-128 |
| mandatoryRequestParams | 135-140 | 130-135 |
| createErrorResponse | 142-149 | 137-144 |
| doOpsGenieHTTPRequestHandled / doOpsGenieHttpRequestHandled | 151-158 | 146-153 |
| doOpsGenieHTTPRequest / doOpsGenieHttpRequest | 160-173 | 155-168 |
| createURL / createUrl | 208-220 | 203-215 |

**Send loop timing.** The loop ranges over `time.Tick`, which first fires
one interval after the loop starts, so there is no immediate send. After `n`
ticks the loop has sent exactly `n` heartbeats, and before the first tick it
has sent none. `time.Tick` gives no timer for a zero or negative interval, and
ranging over that blocks forever. The validation never checks the loop
interval, so `sendLoop -l 0s` waits forever without sending. The model gives
such a loop no ticks at all.

## Model

| member | source | states |
|---|---|---|
| Arguments.ExtractArgs | script_monitor/src/opsgenie/arguments.go:117-125 | An empty `apiKey` or `name` is refused with the mandatory-flags message. This check comes first, whatever the unit is. With both present, a non-empty unit outside minutes/hours/days is refused with the interval message. A success satisfies `Valid` and copies every flag value into the record, field by field in declaration order. |
| Arguments.ExtractArgsRoundTrip | script_monitor/src/opsgenie/arguments.go:107-124 | Validation accepts a record's own flag values exactly when the record is `Valid`. It then gives the record back unchanged. |
| Arguments.IntervalUnitRule | script_monitor/src/opsgenie/arguments.go:121-123 | With both globals set, validation succeeds if and only if the unit is "", "minutes", "hours" or "days". |
| Arguments.MissingGlobalsRefused | script_monitor/src/opsgenie/arguments.go:14-25 | The global flags default to "". Leaving either one out is refused for every command. |
| Arguments.InvocationFitsFlags | script_monitor/src/opsgenie/arguments.go:27-104 | A context built from a command's declared defaults leaves every undeclared flag at its zero value. |
| Arguments.UnitRefusedOnlyWhereDeclared | script_monitor/src/opsgenie/arguments.go:117-125 | For a context its command can return, with both globals set, validation can fail only when the command declares the unit flag. Otherwise it always succeeds. |
| Arguments.UnitDeclaredByStartCommandsOnly | script_monitor/src/opsgenie/arguments.go:54-104 | start and startLoop declare the unit flag. stop, send and sendLoop do not. |
| Arguments.DefaultsAccepted | script_monitor/src/opsgenie/arguments.go:27-51 | With both globals given, each command's defaults pass validation. start and startLoop get interval 10 in "minutes", the two loop commands get a 60 s loop interval, and every other field takes its zero value. |
| Arguments.FindCommand | script_monitor/src/opsgenie/arguments.go:54-104 | A command found by name is in the table and carries that name. None is returned only when no entry has that name. |
| Arguments.CommandDispatch | script_monitor/src/opsgenie/arguments.go:54-104 | start, startLoop, stop, send and sendLoop each dispatch to their own operation. |
| Payloads.MandatoryContentParams | script_monitor/src/opsgenie/opsgenie_client.go:114-119 | The map built key by key equals the mandatory content. |
| Payloads.AllContentParams | script_monitor/src/opsgenie/opsgenie_client.go:121-133 | The map built by conditional insertions equals the full content. |
| Payloads.UpdateContentParams | script_monitor/src/opsgenie/opsgenie_client.go:81-84 | The update body equals the full content with `id` and then `enabled` set. |
| Payloads.MandatoryRequestParams | script_monitor/src/opsgenie/opsgenie_client.go:135-140 | The query built key by key equals the mandatory query. |
| Payloads.MandatoryShape | script_monitor/src/opsgenie_client.go:109-135 | The mandatory body and the mandatory query each have key set exactly {apiKey, name}, with the values taken from the arguments. |
| Payloads.AllContentShape | script_monitor/src/opsgenie_client.go:116-128 | The full content holds the mandatory content unchanged. It holds `description`, `interval` and `intervalUnit` each if and only if that field is non-empty or non-zero, with the argument's value, and no other key. |
| Payloads.UpdateContentShape | script_monitor/src/opsgenie_client.go:76-81 | The update body is the full content plus `id` and `enabled = true`. Neither key collides with a content key. Removing the two gives back the full content. |
| Payloads.ContentRoundTrip | script_monitor/src/opsgenie/opsgenie_client.go:121-133 | A receiver that reads absent fields as zero recovers the whole configuration from the full content. |
| Payloads.AllContentOfTestArgs | script_monitor/src/opsgenie/opsgenie_client_test.go:8-35 | For the unit test's arguments, the full content and the mandatory query are exactly the maps the tests compare against. The unit "month" passes through unvalidated. |
| Urls.Add | script_monitor/src/opsgenie/opsgenie_client.go:216 | Adding a value appends it to the key's values and leaves every other key as it was. |
| Urls.CopyParams | script_monitor/src/opsgenie/opsgenie_client.go:214-217 | The range loop ends with one single-valued entry per parameter, whatever order the map yields its keys in. |
| Urls.Encode | script_monitor/src/opsgenie/opsgenie_client.go:218 | The loop writes every `key=value` pair, keys in increasing order, separated by `&`. |
| Urls.SortedKeysIncreasing | script_monitor/src/opsgenie/opsgenie_client.go:218 | The key order used by the encoding is strictly increasing. |
| Urls.CreateURL | script_monitor/src/opsgenie/opsgenie_client.go:208-220 | The URL is the endpoint, then the suffix, then `?` and the encoded query only when the query is non-empty. |
| Urls.UrlWithoutParams | script_monitor/src/opsgenie_client.go:203-215 | Without parameters, the URL is the endpoint followed by the suffix. |
| Urls.UrlWithOneParam | script_monitor/src/opsgenie_client.go:203-215 | A single parameter yields `endpoint + suffix + "?k=v"`. |
| Urls.UrlWithMandatoryQuery | script_monitor/src/opsgenie/opsgenie_client.go:208-220 | The mandatory query encodes as `?apiKey=…&name=…`, the key before the name. |
| Urls.UrlOfPackageTest | script_monitor/src/opsgenie/opsgenie_client_test.go:10-21 | Suffix `/v1/test` with apiKey=test gives exactly `https://api.opsgenie.com/v1/test?apiKey=test`. |
| Responses.CreateErrorResponse | script_monitor/src/opsgenie/opsgenie_client.go:142-149 | Succeeds if and only if the body decodes as an error response, and then returns it. Otherwise it fails as malformed. |
| Responses.CreateHeartbeat | script_monitor/src/opsgenie/opsgenie_client.go:67-75 | Succeeds with a present heartbeat if and only if the body decodes as one. Otherwise it fails as malformed. |
| Responses.DoOpsGenieHTTPRequest | script_monitor/src/opsgenie/opsgenie_client.go:160-173 | Returns the body if and only if the status is 200. A transport failure stays a transport error. Any other status is a rejection carrying the decoded error, or malformed when the error body does not decode. |
| Responses.CheckHeartbeatError | script_monitor/src/opsgenie/opsgenie_client.go:55-65 | "No heartbeat, no error" if and only if the status is 400 and the decoded code is 17. An undecodable body is malformed. Every other combination is a rejection carrying the decoded response. |
| Responses.FetchResult | script_monitor/src/opsgenie/opsgenie_client.go:44-53 | Found if and only if the status is 200 and the body decodes as a heartbeat, which is then the result. Absent if and only if the status is 400 with error code 17. |
| Responses.FetchAgreesWithGeneric | script_monitor/src/opsgenie_client.go:39-60 | The fetch path reads "absent" exactly where the generic path reports a code-17 rejection with status 400. Otherwise the fetch path fails with the same error as the generic path, and it never reports a heartbeat when the generic path fails. |
| Controller.Handled | script_monitor/src/opsgenie/opsgenie_client.go:151-158 | The log line is the success message if and only if the generic path succeeds. Otherwise it is the generic path's error. |
| Controller.Client.DoOpsGenieHTTPRequestHandled | script_monitor/src/opsgenie/opsgenie_client.go:151-158 | Appends the one request and the one log line. The method returns nothing, so an error never reaches the caller. |
| Controller.Client.GetHeartbeat | script_monitor/src/opsgenie/opsgenie_client.go:44-53 | Sends one GET with the mandatory query. Returns the fetch classification. Logs "retrieved" for a found heartbeat, "doesn't exist" for an absent one, and nothing on error. |
| Controller.Client.AddHeartbeat | script_monitor/src/opsgenie/opsgenie_client.go:77-79 | Appends one POST to `/v1/json/heartbeat/` carrying the full content, and its handled log line. |
| Controller.Client.UpdateHeartbeatWithEnabledTrue | script_monitor/src/opsgenie/opsgenie_client.go:81-86 | Appends one POST to `/v1/json/heartbeat` carrying the update body for the fetched heartbeat's id, and its handled log line. |
| Controller.Client.SendHeartbeat | script_monitor/src/opsgenie/opsgenie_client.go:88-90 | Appends one POST to `/v1/json/heartbeat/send` carrying the mandatory content, and its handled log line. |
| Controller.Client.SendHeartbeatLoop | script_monitor/src/opsgenie/opsgenie_client.go:92-96 | With a positive interval and one reply per tick, the loop appends one send per tick and the log line for each tick's reply, in tick order. With a zero or negative interval it appends nothing. |
| Controller.Client.StartHeartbeat | script_monitor/src/opsgenie/opsgenie_client.go:25-36 | Appends the fetch, then a create when the heartbeat is absent, an update when it is found, and nothing more on error. The error is logged. |
| Controller.Client.StartHeartbeatAndSend | script_monitor/src/opsgenie/opsgenie_client.go:20-23 | Appends the start trace, then one send, whatever the start did. |
| Controller.Client.StartHeartbeatLoop | script_monitor/src/opsgenie/opsgenie_client.go:39-42 | Appends the start trace, then the loop's trace for the ticks that fire. |
| Controller.Client.StopHeartbeat | script_monitor/src/opsgenie/opsgenie_client.go:98-104 | Appends the delete when `delete` is set, the disable otherwise. |
| Controller.Client.DeleteHeartbeat | script_monitor/src/opsgenie/opsgenie_client.go:106-108 | Appends one DELETE to `/v1/json/heartbeat` with the mandatory query and no body, and its handled log line. |
| Controller.Client.DisableHeartbeat | script_monitor/src/opsgenie/opsgenie_client.go:110-112 | Appends one POST to `/v1/json/heartbeat/disable` carrying the mandatory content, and its handled log line. |
| Controller.Client.Run | script_monitor/src/opsgenie/arguments.go:54-104 | Takes flag values that the command's context can return, where every undeclared flag is at its zero value. Validates them. A refusal sends and logs nothing. An accepted configuration runs exactly the command's operation. |
| Controller.RequestsAddressTheirOperation | script_monitor/src/opsgenie_client.go:72-107 | Each request builder addresses its own operation by method and path. |
| Controller.StartAfterFailedFetch | script_monitor/src/opsgenie_client.go:21-32 | After a failed fetch, the start sends nothing but the fetch. It makes zero creates and zero updates and logs the error. |
| Controller.StartWhenAbsent | script_monitor/src/opsgenie_client.go:21-32 | For an absent heartbeat, the start sends exactly the fetch and one POST `/v1/json/heartbeat/` with the full content. That is one create and no update. It logs "doesn't exist" and the create's line. |
| Controller.StartWhenFound | script_monitor/src/opsgenie_client.go:21-32 | For a found heartbeat, the start sends exactly the fetch and one POST `/v1/json/heartbeat`. That is one update and no create. The body carries the remote id and `enabled = true` on top of the full content. |
| Controller.StartWritesAtMostOnce | script_monitor/src/opsgenie_client.go:21-32 | Every start fetches once and then creates or updates at most once, never both. |
| Controller.StartAndSendEndsWithSend | script_monitor/src/opsgenie_client.go:16-19 | Whatever the fetch and the write answered, start ends with exactly one send, a POST `/v1/json/heartbeat/send` with the mandatory content. |
| Controller.LoopSendsOncePerTick | script_monitor/src/opsgenie_client.go:87-91 | `n` ticks send exactly `n` heartbeats and no request of any other kind. |
| Controller.LoopSendsWhenIntervalPositive | script_monitor/src/opsgenie_client.go:87-91 | With a positive loop interval, sendLoop sends one heartbeat per tick. startLoop sends its start requests followed by exactly the sendLoop requests. |
| Controller.LoopSilentWhenIntervalNotPositive | script_monitor/src/opsgenie/opsgenie_client.go:92-96 | With a zero or negative loop interval, sendLoop sends and logs nothing. startLoop does only its start. |
| Controller.StopDeletesOrDisables | script_monitor/src/opsgenie_client.go:93-107 | Stop sends one DELETE if and only if `delete` is set, and one disable if and only if it is not. It never sends both. |
| Controller.OnlyStopRemoves | script_monitor/src/opsgenie/arguments.go:54-104 | No command other than stop deletes or disables a heartbeat. |
| Controller.FetchUrl | script_monitor/src/opsgenie_client.go:39-40 | The fetch's URL is the endpoint, `/v1/json/heartbeat/`, then `?apiKey=…&name=…`. |
| Controller.DeleteUrl | script_monitor/src/opsgenie_client.go:101-103 | The delete's URL is the endpoint, `/v1/json/heartbeat`, then `?apiKey=…&name=…`. |
| Controller.BodyRequestUrls | script_monitor/src/opsgenie_client.go:72-107 | The create, update, send and disable carry no query, so each URL is the endpoint followed by the path. |

## Left out

- HTTP transport: TLS settings (including the skipped certificate check), the proxy, the 30 s dial timeout and deadline, and reading the body. A reply is a parameter, either a transport failure or a status with a body.
- JSON encoding and decoding are library calls. A body is given as what the error decoder and the heartbeat decoder make of it. A body that encodes to JSON `null` is not modelled. For the heartbeat decoder, `null` clears the pointer, so the heartbeat reads as absent and a create follows. For the error decoder, `null` leads to a nil dereference.
- Urls.Encode: does not percent-escape keys or values. Go's `url.Values.Encode` escapes them; a name `db backup`, for example, is sent as `name=db+backup`. The URLs the model states (Urls.CreateURL, Urls.UrlWithOneParam, Urls.UrlWithMandatoryQuery, Controller.FetchUrl, Controller.DeleteUrl) therefore equal the URL sent only when the API key and the heartbeat name contain nothing but unreserved characters: letters, digits, `-`, `_`, `.` and `~`.
- Urls.CreateURL: does not model `url.Parse` failures. The base is a constant, and the suffix is one of the fixed paths.
- Controller.Client.SendHeartbeatLoop: does not model the unbounded, wall-clock-driven loop itself. It models the first `n` ticks, with one reply per tick. The interval's length is not modelled, only whether it is positive. With a zero or negative interval the loop blocks forever without sending; the model returns at once, having sent nothing.
- Error values are modelled by their cause (transport, malformed, rejected with the decoded response), not by the `%#v` text the source formats.
- Log levels are not modelled. The `main` program sets the level to warnings, which hides the informational lines. The model records every line written, with its kind.
- Process exit in `logAndExit` is a `Failure` carrying the message. The exit hook's replaceability is not modelled.
- Flag parsing by the `cli` library is not modelled. The values the context returns are the input `Context`, and an undeclared flag reads as its zero value. Flag aliases are kept as data; usage and description texts are not modelled.
- script_monitor/src/main.go is CLI wiring only (application name, version, flag and command registration).
- Compile inconsistencies are not modelled, and one `OpsArgs` record is used. In the source, `OpsArgs` declares exported fields while the client and the tests read lowercase ones. The `main` copy also refers to names the shown files do not define.
