# TestContext of the REST API test harness, in Dafny

`docs/api/rest_test.rb` drives tests of the build service's REST API. A test
script runs inside a `TestContext`, sets a few switches (show the XML body,
a request-name filter, show passed requests), binds the `@arg_<name>`
variables of path parameters and the `@data_body` of PUT requests, registers
host aliases, and calls `request(name, expected_code)` once per catalog
entry. Each call is narrated into a buffer, runs one HTTP exchange, and ends
in one of five counters (passed, failed, unsupported, error, skipped) or in
none of them. `print_summary` reports the number of requests that no counter
accounts for as `undefined`.

The model follows the source's own shape:

- `RestTest.TestContext` is a class with the source's fields: the six
  counters, the narration buffer `output`, the host alias table, the
  switches, and the bindings (`args`, `dataBody`).
  - Its methods update those fields step by step, as `start`, `out`,
    `out_clear`, `out_flush`, `alias_host`, the five outcome methods,
    `substitute_parameters` and `request` do.
  - `request` is split along its early returns into `Request` → `Screen` →
    `Fetch` → `Execute` → `Locate` → `Perform` → `Deliver` (`Send`, `Conclude`).
  - Each of these methods is proved against a specification function of the
    same step: `Decide` → `Lookup` → `Prepare` → `Route` → `Dispatch`
    (`Transmit`, `Respond`).
- The outside world is an `Oracle` value: what the network answers to a
  request, where a redirection points, whether the request filter matches,
  and whether `xmllint` accepts a body. The model fixes what is asked of it
  and how the answers are used, not what it answers.
- Two ghost fields exist only to state what a `request` does; the Ruby object
  has neither:
  - `sent` records every request put on the wire;
  - `recorded` records every outcome an outcome method counted, with the
    message of an error.
- Pure parts are functions:
  - the status and schema verdict (`Verdicts`);
  - the placeholder substitution (`Parameters`, over a literal replace-all in
    `Text`);
  - `String#split(":")` for host and port (`Text.Split`);
  - the counters and the `undefined` arithmetic (`Statistics`).
- `Outcomes` characterises, for all inputs, when each outcome happens and
  which calls go out. `Scenarios` works through one concrete request end to
  end.

A status code is the text `Net::HTTP` reports. It is in the Successful class
when its first digit is 2 (section 15.3 of RFC 9110) and in the Redirection
class when it is 3 (section 15.4), which is how `Net::HTTP` picks the
response class. The expected code is the text of `return_code.to_s`, or
`None` for `nil`.

## Model

| member | source | states |
|---|---|---|
| RestTest.TestContext.constructor | docs/api/rest_test.rb:11-18 | the alias table, the buffer and the ghost records start empty, the catalog is the one given, and every counter is zero |
| RestTest.TestContext.Start | docs/api/rest_test.rb:20-27 | all six counters become zero |
| RestTest.TestContext.Out | docs/api/rest_test.rb:92-94 | the buffer gains the line and a newline at its end, and the old buffer is a prefix of the new one |
| RestTest.TestContext.OutClear | docs/api/rest_test.rb:96-98 | the buffer becomes empty |
| RestTest.TestContext.OutFlush | docs/api/rest_test.rb:100-103 | the buffer becomes empty after it is handed to `puts` |
| RestTest.TestContext.Unsupported | docs/api/rest_test.rb:50-54 | only `unsupported` grows, by one, the outcome is recorded, and the buffer is left empty |
| RestTest.TestContext.Failed | docs/api/rest_test.rb:56-60 | only `failed` grows, by one, the outcome is recorded, and the buffer is left empty |
| RestTest.TestContext.Passed | docs/api/rest_test.rb:62-70 | only `passed` grows, by one, the outcome is recorded, and the buffer is left empty whether it was printed (`show_passed`) or discarded |
| RestTest.TestContext.Skipped | docs/api/rest_test.rb:72-76 | only `skipped` grows, by one, the outcome is recorded, and the buffer is left empty |
| RestTest.TestContext.Error | docs/api/rest_test.rb:78-86 | only `error` grows, by one, the error is recorded with exactly the message given (or none), and the buffer is left empty |
| RestTest.TestContext.AliasHost | docs/api/rest_test.rb:88-90 | the alias table gains or overwrites exactly one entry |
| RestTest.TestContext.SubstituteParameters | docs/api/rest_test.rb:238-253 | the loop's result is the substitution `Substitute` defines; the buffer is unchanged on success; a missing binding appends exactly the "Can't substitute parameter" line for the first unbound parameter |
| RestTest.TestContext.Request | docs/api/rest_test.rb:105-236 | returns the response `Decide` determines and sends exactly its calls; `tested` grows by one and at most the outcome's counter by one; the outcome, with its error message, is recorded exactly when it is counted; a counted outcome leaves the buffer empty, an uncounted one only extends it |
| RestTest.TestContext.Screen | docs/api/rest_test.rb:108-236 | a name the filter rejects is skipped with no call; any other runs as `Lookup` decides; the counters, calls, record and buffer follow `Decide` |
| RestTest.TestContext.Fetch | docs/api/rest_test.rb:113-236 | after the filter: an unknown name counts and records nothing and sends nothing; a known one runs as `Lookup` decides |
| RestTest.TestContext.Execute | docs/api/rest_test.rb:124-236 | an empty host is an error recorded with the "No host defined" message and no call; otherwise the request goes to the aliased host as `Prepare` decides |
| RestTest.TestContext.Locate | docs/api/rest_test.rb:144-236 | a missing binding is an error recorded without a message and no call; otherwise the built path is dispatched as `Route` decides |
| RestTest.TestContext.Perform | docs/api/rest_test.rb:153-236 | an unknown verb is unsupported; a PUT without a data body is an error recorded with its message and no call; otherwise the request is sent and judged as `Dispatch` decides |
| RestTest.TestContext.Deliver | docs/api/rest_test.rb:159-231 | a sendable request's calls, response, counted and recorded outcome are those of `Transmit` followed by `Respond` |
| RestTest.TestContext.Send | docs/api/rest_test.rb:159-199 | puts on the wire exactly the calls `Transmit` names and returns the last response; the buffer is only extended |
| RestTest.TestContext.Conclude | docs/api/rest_test.rb:206-231 | no response counts and records nothing and leaves the buffer alone; a response bumps exactly the counter `Judge` picks, records that outcome and leaves the buffer empty |
| Catalog.Find | docs/api/rest_test.rb:115-117 | finds a request exactly when one has that name; the one found is the first such entry of the catalog |
| Verdicts.Classify | docs/api/rest_test.rb:212-219 | fails exactly when the status check fails, passes outright exactly when it succeeds without an XML result, and otherwise asks for the schema file `SchemaFile` names |
| Verdicts.Judge | docs/api/rest_test.rb:212-231 | always passes or fails; passes exactly when the status check succeeds and either there is no XML result or the body validates against the schema file (`schema`, else `name.xsd`) |
| Verdicts.SuccessOverridesExpected | docs/api/rest_test.rb:212-213 | a 2xx code passes the status check whatever code was expected |
| Verdicts.OnlyExpectedOutsideSuccess | docs/api/rest_test.rb:212-213 | outside 2xx only the expected code passes the status check |
| Statistics.Tally.Undefined | docs/api/rest_test.rb:271 | `undefined` plus the five counters is `tested` |
| Catalog.SchemaFile | docs/api/rest_test.rb:214-219 | the schema file is the result's `schema` when set, otherwise the result's name followed by `.xsd` |
| Statistics.Tally.Bump | docs/api/rest_test.rb:50-86 | an outcome method leaves `tested` alone, never lowers a counter, raises the counters' sum by one and lowers `undefined` by one exactly for a counted outcome |
| Statistics.BumpOnlyItsBucket | docs/api/rest_test.rb:50-86 | each outcome raises exactly its own counter by one; the outcomes without a counter change nothing |
| Statistics.Tally.AfterRequest | docs/api/rest_test.rb:105-106 | one `request` raises `tested` by one and `undefined` by one exactly when no counter records it |
| Statistics.ReplayUndefined | docs/api/rest_test.rb:271 | over a run of requests `tested` grows by the number of requests and `undefined` by the number of uncounted ones |
| Statistics.UndefinedNeverNegative | docs/api/rest_test.rb:271 | from `start`, `undefined` is never negative, never decreases from one request to the next, and is zero exactly when every request was counted |
| Parameters.Placeholder | docs/api/rest_test.rb:249 | the placeholder of a name is the name in angle brackets: it starts with `<`, ends with `>`, and what lies between is the name |
| Parameters.Substitute | docs/api/rest_test.rb:238-253 | a failed substitution names a declared parameter that has no binding; a successful one had every declared parameter bound |
| Parameters.SubstituteFailsOnFirstUnbound | docs/api/rest_test.rb:241-248 | substitution fails exactly when some declared parameter is unbound, and names the first unbound one |
| Parameters.SubstituteWithoutPlaceholders | docs/api/rest_test.rb:239-252 | with every parameter bound, a path without placeholders comes back unchanged |
| Parameters.SubstituteOnePlaceholder | docs/api/rest_test.rb:249 | a single placeholder is replaced in place by its bound value |
| Text.ReplaceAll | docs/api/rest_test.rb:249 | a replacement as long as the pattern keeps the text's length, and replacing the pattern by itself changes nothing |
| Text.ReplaceAllAbsent | docs/api/rest_test.rb:249 | replacing a pattern that does not occur changes nothing |
| Text.ReplaceAllLeftmost | docs/api/rest_test.rb:249 | the leftmost occurrence is replaced first and scanning resumes after it |
| Text.Fields | docs/api/rest_test.rb:153 | splitting yields at least one field and no field contains the separator |
| Text.JoinFields | docs/api/rest_test.rb:153 | joining the fields with the separator gives back the text |
| Text.FieldsJoin | docs/api/rest_test.rb:153 | splitting a join of separator-free fields gives back the fields |
| Text.DropTrailingEmpty | docs/api/rest_test.rb:153 | `split` keeps a prefix of the fields that ends in a non-empty field and drops only empty ones |
| Text.Split | docs/api/rest_test.rb:153 | `split(":")` yields a prefix of the fields, none containing the separator, the last one non-empty, and drops only empty fields |
| Executor.HostName | docs/api/rest_test.rb:153-155 | the host name is the field before the first colon; it is absent (`nil`) exactly when every field is empty |
| Executor.HostPort | docs/api/rest_test.rb:153-156 | the port is the field after the first colon; it is absent (`nil`) exactly when every field after the first is empty |
| Executor.HostNameAndPort | docs/api/rest_test.rb:153-158 | `name:port` connects to `name` on `port`, and a bare name has no port |
| Executor.Aliased | docs/api/rest_test.rb:138-140 | a host with an alias is replaced by the alias; any other host is kept |
| Executor.AliasRedirectsOnlyItsHost | docs/api/rest_test.rb:138-140 | after `alias_host` the aliased name maps to its replacement and every other host resolves as before |
| Executor.Decide | docs/api/rest_test.rb:105-236 | skipped, with no call and no response, exactly when a filter is set and rejects the name |
| Executor.Lookup | docs/api/rest_test.rb:113-236 | never skipped; uncounted as not defined exactly when the catalog has no request of that name |
| Executor.Prepare | docs/api/rest_test.rb:124-236 | neither skipped nor not defined; the "No host defined" error exactly when the host is empty |
| Executor.Route | docs/api/rest_test.rb:138-236 | neither skipped, not defined, nor the "No host defined" error; the message-less error exactly when substitution finds an unbound parameter |
| Executor.Respond | docs/api/rest_test.rb:206-231 | the run keeps the calls and the response, and is uncounted exactly when no response came back |
| Executor.Transmit | docs/api/rest_test.rb:159-199 | one call to the host's name and port with the verb's body, and a second GET to the redirect target exactly when a GET is answered with a redirection; the response is the last call's |
| Executor.Dispatch | docs/api/rest_test.rb:159-204 | dispatch ends unsupported, in the PUT body error, passed, failed or without a response, and in nothing else |
| Outcomes.EarlyOutcomes | docs/api/rest_test.rb:105-149 | skipped exactly when the filter rejects the name; uncounted with no request exactly when the name is unknown; the "No host defined" error exactly for an empty host; the message-less error exactly for a missing binding |
| Outcomes.UnsendableOutcomes | docs/api/rest_test.rb:187-204 | the "No body data defined for PUT" error exactly for a PUT without a data body; unsupported exactly for a verb other than GET, POST and PUT |
| Outcomes.CallsOfRequest | docs/api/rest_test.rb:159-204 | at most two calls; some call goes out exactly when the request is found, has a host, has all its bindings, has a supported verb and, for a PUT, has a body; without a call there is no response |
| Outcomes.FirstCall | docs/api/rest_test.rb:152-199 | the first call goes to the name and port of the aliased host with the substituted path and the verb's body; the response is the last call's; uncounted exactly when none came back |
| Outcomes.VerdictOfResponse | docs/api/rest_test.rb:206-231 | a request with a response passes or fails, passing exactly when the status check and (with an XML result) the schema check succeed; only a request with a response passes or fails |
| Outcomes.RedirectThenSuccessPasses | docs/api/rest_test.rb:168-176 | a GET redirected to a target answering 2xx passes without an XML result, after two calls |
| Scenarios.ItemPasses | docs/api/rest_test.rb:105-236 | a GET of `/items/<id>` on `api.example.com`, aliased to `localhost:8080`, with `id` bound to 42 and a 200 answer, passes after one GET of `/items/42` on `localhost` port 8080 |
| Scenarios.ItemWithoutBinding | docs/api/rest_test.rb:144-149 | the same request without a binding for `id` is a message-less error that sends nothing |
| Scenarios.FirstRequestTally | docs/api/rest_test.rb:105-106 | as the first request of a run these leave `tested=1, passed=1` and `tested=1, error=1` |

## Left out

- Network I/O. `Net::HTTP.start` and the requests it sends are the oracle's
  `send`. An exception raised by the transport (refused connection, timeout)
  escapes `request` in Ruby; the model has no exceptions, and `send` either
  returns a response or none.
- Basic authentication (`basic_auth` with `@user` and `@password`). Those
  credentials are not set anywhere in this file, and the header does not
  change any decision.
- `validate_xml` (its temporary file and `/usr/bin/xmllint`). It is the
  oracle's `validate`.
- Regular expressions. The request filter `arg =~ /filter/` is the oracle's
  `matches`.
- Text.ReplaceAll: `gsub!` is modelled as a literal replace-all. It differs
  from Ruby in two ways:
  - for parameter names containing regular-expression metacharacters;
  - for bound values containing backslash sequences, which `gsub!` interprets
    in its replacement (`\0`, `\&`, `\1`, `\\`, `\k<name>`). For example, the
    value `x\0` turns `/items/<id>` into `/items/x<id>` in Ruby, but into
    `/items/x\0` in the model.
- A redirection without a `Location` header. `URI.parse` of `nil` raises in
  Ruby, and the exception escapes `request`. The oracle's `location` always
  yields a target.
- A response with no body (`nil`) while `show_xmlbody` is set. `out` of `nil`
  raises in Ruby. The model's body is always a string.
- `eval("@arg_<name>")`. It is a lookup in the map `args`; an undefined
  variable is a missing key.
- Printing. `puts` in `out_flush`, the standard-error lines ("Request not
  defined", "not supported yet", the `xmllint` diagnostics) and the ANSI
  `bold`/`red`/`green`/`magenta` wrappers are console output. A line is
  appended to the buffer without escape codes, and `out_flush` only empties
  the buffer.
- The printed lines of `print_summary`. Only its `undefined` arithmetic is
  modelled, as `Statistics.Tally.Undefined`.
- `TestRunner` and `get_binding`. They read and `eval` a script file.
- Ruby values outside the model's types:
  - a `nil` host is the empty string, as `to_s` makes it;
  - `return_code` is its `to_s` text;
  - ports, including those of a redirect `Location`, are text.
- `all_children XmlResult`: only the first XML result of a request matters
  to `request`, and it is the descriptor's `xmlResult`.
- RestTest.TestContext.Send: states only that the buffer is extended, not the
  "  PUT" and "  Redirected to" lines themselves.
- RestTest.TestContext.Request: for an uncounted outcome it states that the
  narration extends the buffer, not which lines it holds.
- RestTest.TestContext.Screen: for an uncounted outcome it states that the
  narration extends the buffer, not which lines it holds.
- RestTest.TestContext.Fetch: for an uncounted outcome it states that the
  narration extends the buffer, not which lines it holds.
- RestTest.TestContext.Execute: for an uncounted outcome it states that the
  narration extends the buffer, not which lines it holds.
- RestTest.TestContext.Locate: for an uncounted outcome it states that the
  narration extends the buffer, not which lines it holds.
- RestTest.TestContext.Perform: for an uncounted outcome it states that the
  narration extends the buffer, not which lines it holds.
- RestTest.TestContext.Deliver: for an uncounted outcome it states that the
  narration extends the buffer, not which lines it holds.
