# WAF-wasm configuration and integration tests, modelled in Dafny

This project models two parts of the WAF-wasm SQL-injection filter.

The first is the filter's configuration validator (`utility/config_parser.cc`).
A configuration is a JSON document with up to four sections: `body`, `path`,
`cookie` and `header`. Each section carries an `include` list or an `exclude`
list of keys, never both. The `body` section must also name its content type,
and only `application/x-www-form-urlencoded` is accepted. `parseConfig` checks
the sections in that order and writes each one into a `Config` through
out-pointers. It stops at the first section that fails and leaves a message in
a log string. On success the log holds a description of the configuration
(`Config::to_string`).

The second is the Go integration-test harness (`integration_test/`). For each
filter configuration, `TestForConfig` builds a suite of named test requests:

- a baseline without injection;
- two path cases;
- one case per header, cookie and body key that the configuration is expected
  to include in or exclude from detection;
- optional cases that put the payload in a cookie name or a body key.

`Eval` sends each request through the proxy and decides the verdict. A request
carrying an injection must be answered with 403 Forbidden and must not reach
the capture server (or, for an injection in the body, must not reach it with
a non-empty body). Any other request must reach the server intact and be answered
with 200 OK and the server's message. `RunRequests` runs the cases one at a
time and stops the process at the first failure.

Files:

- `wrappers.dfy`: the `Option` type.
- `config_parser.dfy`: module `ConfigParser`. It holds:
  - a JSON value type;
  - the specification functions `Validate`, `ApplySections` and `Parse`;
  - the class `Config`, whose fields `parseConfig` writes in place;
  - the methods `FieldToString`, `ValidateConfigField` and `ParseConfig`, each
    proved against those functions;
  - lemmas about the specification, including a render/parse round trip.
- `harness.dfy`: module `Harness`. It holds the test-request template, the
  request `Eval` builds, the verdict `Eval` computes, and the fail-fast run.
- `test_matrix.dfy`: module `TestMatrix`. It holds the Go `Config` struct and
  `TestForConfig`. `TestForConfig` is proved to build `Matrix(c)`, the left
  fold of its insertions into the suite's map. The lemmas say what that map
  contains. The three configurations of `TestDefault`, `TestInclude` and
  `TestExclude` are checked as instances.

## Model

| member | source | states |
|---|---|---|
| ConfigParser.FieldToString | utility/config_parser.cc:3-12 | The text is "include: " or "exclude: " by the flag, followed by every key in order, each followed by ", ". |
| ConfigParser.ListingSnoc | utility/config_parser.cc:8-10 | Appending one key to the list appends exactly that key and its separator to the listing. |
| ConfigParser.EmptySectionText | utility/config_parser.cc:3-11 | A section without keys is described by its prefix alone. |
| ConfigParser.Config.ToString | utility/config_parser.cc:14-20 | The description is "config: ", the content type, then the body, header and cookie sections in that order. |
| ConfigParser.DescribeIgnoresPath | utility/config_parser.cc:15-19 | The path section is described but dropped, so changing it never changes the description. |
| ConfigParser.ValidateCases | utility/config_parser.cc:32-50 | Validation fails exactly when both lists are present, and the message then names the conflict. With neither list the section is unchanged. With one list the section takes that list and the matching flag. |
| ConfigParser.ValidateConfigField | utility/config_parser.cc:32-50 | The result, the log and the configuration afterwards match `Validate`. Only the addressed section changes, and only on success. On failure the log is replaced by the message. |
| ConfigParser.Config.Store | utility/config_parser.cc:40-48 | Writing through a section's two out-pointers changes that section's flag and keys and nothing else. |
| ConfigParser.ParseConfig | utility/config_parser.cc:52-94 | The result, the configuration afterwards and the log equal `Parse` of the parsed document and the configuration before. |
| ConfigParser.ParseRejectsBeforeWriting | utility/config_parser.cc:54-73 | A parse error, a body without a content type, or a body with another content type fails with its own message and leaves the configuration untouched. |
| ConfigParser.ParseKeepsContentType | utility/config_parser.cc:67-68 | The content type is read for the check but never stored, so the configuration's content type is unchanged. |
| ConfigParser.FirstConflict | utility/config_parser.cc:74-91 | Gives the index of the first section that carries both lists, or the number of sections when none does. |
| ConfigParser.ApplySectionsInOrder | utility/config_parser.cc:74-93 | Sections are validated in order up to the first conflict. Each earlier section is stored as `Validate` gives it. That section and the later ones keep their old value. Success comes exactly when there is no conflict. The log is the description on success and the conflict message otherwise. |
| ConfigParser.SectionFieldsDistinct | utility/config_parser.cc:61-89 | The four sections checked are distinct sections of the configuration. |
| ConfigParser.ValidateRendered | utility/config_parser.cc:40-49 | A section written as a single list, with the content type for the body, validates to exactly that section, whatever was stored before. |
| ConfigParser.ParseRenderRoundTrip | utility/config_parser.cc:52-94 | Parsing a document rendered from a configuration succeeds and stores all four of its sections. Only the content type is kept from before. |
| Harness.NewTestRequest | integration_test/integration-test.go:98-108 | The default template: path "/", one path parameter, header, cookie and body parameter with their default values, and no injection expected. |
| Harness.NewTestSuite | integration_test/integration-test.go:72-81 | A suite for the proxy URL, with server port ":8080", server message "request received" and no cases. |
| Harness.SetHeaders | integration_test/integration-test.go:211-215 | Gives the form content type unless a template header replaces it, and every template header under its canonical name. A header's own value survives unless another template header shares its canonical name. |
| Harness.AddCookies | integration_test/integration-test.go:216-218 | One cookie per template cookie, each with the template's value and nothing else. |
| Harness.NewWireRequest | integration_test/integration-test.go:204-218 | A POST to the proxy URL plus the template path, with the encoded path parameters as query, the encoded body, and the template's headers and cookies. |
| Harness.Eval | integration_test/integration-test.go:203-314 | Passes exactly when the request was sent and either it carries an injection and was blocked as expected, or it does not and was forwarded intact and answered with 200 and the server message. |
| Harness.SendErrorFails | integration_test/integration-test.go:222-227 | A send error fails the case whatever it expects. |
| Harness.EmptyPoll | integration_test/integration-test.go:234-245 | With nothing handed off by the server, a case passes exactly when it expects a block and the proxy answered 403. |
| Harness.BlockedVerdicts | integration_test/integration-test.go:248-268 | A body injection passes exactly on an empty captured body and a 403, even if the request was forwarded. Any other injection passes exactly when nothing arrived and the answer is 403. |
| Harness.UnsetFieldsIgnored | integration_test/integration-test.go:283-298 | Extra headers and cookies the template did not set never change the verdict. |
| Harness.CookieJarAgrees | integration_test/integration-test.go:291-297 | Cookies that agree with the template read back from the server's jar with the template's values, and the jar holds nothing else. |
| Harness.IntactForwardingPasses | integration_test/integration-test.go:270-312 | When a proxy forwards an uninjected built request unchanged and relays the server's 200 answer, the case passes, provided no two template headers canonicalise to the same name. |
| Harness.RunRequests | integration_test/integration-test.go:86-121 | Cases run in order. The passed cases form a prefix of the order, and each one passed. A failure stops the run at the first failing case with exit status 0 and the server left open. Otherwise every case passed and the server is closed. |
| TestMatrix.TestForConfig | integration_test/main.go:36-113 | The suite is a new suite for the proxy URL whose cases are exactly `Matrix(config)`. The passed cases form a prefix of the run order and each one passed. A failure is the case right after that prefix, it fails its verdict, and the server is left open. With no failure every case passed and the server is closed. The exit status is 0 either way. |
| TestMatrix.AddFixedCases | integration_test/main.go:41-53 | Inserts the baseline and the two path cases into the empty map. |
| TestMatrix.AddIncludedHeaderCases | integration_test/main.go:56-61 | Inserts one blocking header case per included header, in list order. |
| TestMatrix.AddExcludedHeaderCases | integration_test/main.go:62-67 | Inserts one non-blocking header case per excluded header, in list order. |
| TestMatrix.AddIncludedCookieCases | integration_test/main.go:70-75 | Inserts one blocking cookie case per included cookie, in list order. |
| TestMatrix.AddExcludedCookieCases | integration_test/main.go:76-81 | Inserts one non-blocking cookie case per excluded cookie, in list order. |
| TestMatrix.AddCookieKeyCase | integration_test/main.go:82-87 | Inserts the cookie-name case exactly when unexpected cookies are expected to be inspected. |
| TestMatrix.AddIncludedBodyCases | integration_test/main.go:90-96 | Inserts one blocking, body-scoped case per included body key, in list order. |
| TestMatrix.AddExcludedBodyCases | integration_test/main.go:97-102 | Inserts one non-blocking case per excluded body key, in list order. |
| TestMatrix.AddBodyKeyCase | integration_test/main.go:103-109 | Inserts the body-key case exactly when unexpected body keys are expected to be inspected. |
| TestMatrix.IncludedHeaderInsert | integration_test/main.go:56-61 | One loop step: inserting the next included header's case extends the fold by that key. |
| TestMatrix.ExcludedHeaderInsert | integration_test/main.go:62-67 | One loop step: inserting the next excluded header's case extends the fold by that key. |
| TestMatrix.IncludedCookieInsert | integration_test/main.go:70-75 | One loop step: inserting the next included cookie's case extends the fold by that key. |
| TestMatrix.ExcludedCookieInsert | integration_test/main.go:76-81 | One loop step: inserting the next excluded cookie's case extends the fold by that key. |
| TestMatrix.IncludedBodyInsert | integration_test/main.go:90-96 | One loop step: inserting the next included body key's case extends the fold by that key. |
| TestMatrix.ExcludedBodyInsert | integration_test/main.go:97-102 | One loop step: inserting the next excluded body key's case extends the fold by that key. |
| TestMatrix.DecodeName | integration_test/main.go:42-108 | Every test name decodes back to the kind and key it was built from. |
| TestMatrix.NameInjective | integration_test/main.go:42-108 | Two insertions share a test name exactly when they are the same kind with the same key. |
| TestMatrix.BuildLookup | integration_test/main.go:42-108 | The suite's names are exactly the names inserted, and each holds its own template, however often it was inserted. |
| TestMatrix.RepeatedEntryChangesNothing | integration_test/main.go:56-108 | Inserting a case again, as a key repeated in a list does, leaves the suite unchanged. |
| TestMatrix.BuildSize | integration_test/main.go:42-108 | Distinct insertions give one case each. |
| TestMatrix.EntriesDistinct | integration_test/main.go:42-108 | With no key repeated within a list, all insertions of a configuration are distinct. |
| TestMatrix.MatrixSize | integration_test/main.go:42-108 | With no key repeated within a list, the suite has 3 cases, plus one per listed key, plus one per unexpected-key flag that is set. |
| TestMatrix.MatrixLookup | integration_test/main.go:42-108 | Every insertion of the configuration is in the suite under its name, with its template. |
| TestMatrix.MatrixNames | integration_test/main.go:42-108 | Every name in the suite is the name of one of the configuration's insertions. |
| TestMatrix.FixedInEntries | integration_test/main.go:41-53 | The baseline and path cases are inserted for every configuration. |
| TestMatrix.BaselineCase | integration_test/main.go:42 | The baseline is always present, as the unmodified default template expecting no block. |
| TestMatrix.PathCases | integration_test/main.go:45-53 | Both path cases are present and expect a block. The value case replaces the default parameter's value with the payload. The key case adds the payload as a second parameter. |
| TestMatrix.HeaderCases | integration_test/main.go:55-67 | Each listed header has its case: the default template with the payload as that header's value, expecting a block exactly when the header is included. |
| TestMatrix.CookieCases | integration_test/main.go:69-81 | Each listed cookie has its case, with the payload as that cookie's value, expecting a block exactly when the cookie is included. |
| TestMatrix.IncludedBodyCases | integration_test/main.go:90-96 | Each included body key has its case, with the payload as its only value, expecting a block and an emptied body. |
| TestMatrix.ExcludedBodyCases | integration_test/main.go:97-102 | Each excluded body key has its case, with the payload as its only value, expecting the request to be forwarded. |
| TestMatrix.CookieKeyEntry | integration_test/main.go:82-87 | The cookie-name insertion is made exactly when its flag is set. |
| TestMatrix.BodyKeyEntry | integration_test/main.go:103-109 | The body-key insertion is made exactly when its flag is set. |
| TestMatrix.CookieKeyCase | integration_test/main.go:82-87 | The cookie-name case exists exactly when its flag is set. It carries the payload as a cookie name with value "value" and expects a block. |
| TestMatrix.BodyKeyCase | integration_test/main.go:103-109 | The body-key case exists exactly when its flag is set. It carries the payload as a body key with value "value" and expects a block of the body. |
| TestMatrix.CaseExpectations | integration_test/main.go:41-109 | A template expects a block exactly for the path, included and unexpected-key kinds. It expects an emptied body exactly for the included-body and body-key kinds. |
| TestMatrix.ExpectationsByKind | integration_test/main.go:41-109 | Across the whole suite, each case's two expectations are determined by the kind its name encodes. |
| TestMatrix.DefaultConfigSize | integration_test/main.go:115-134 | The default configuration's suite has 8 cases. |
| TestMatrix.IncludeConfigSize | integration_test/main.go:136-166 | The include configuration's suite has 9 cases. |
| TestMatrix.ExcludeConfigSize | integration_test/main.go:168-199 | The exclude configuration's suite has 11 cases. |

## Left out

- The JSON parser is not modelled. A document that fails to parse is `None`, and a parsed document is a `Json` value.
- The JSON library's exceptions on a type mismatch are not modelled. A member looked up in a value that is not an object reads as null, so `{"path": ["a"]}` is accepted with the path section unchanged. A list read from a non-list reads as no keys, and a content type that is not a string reads as "".
- `StartServer`, `CloseServer` and `CheckProxyConnection` are not modelled: they are network I/O, goroutines, sleeps and retries.
- `integration_test/http-client-server.go` is not part of this model. It is an earlier version of the automated harness, with its own `Test`, `fail` and `main`, which `integration-test.go` and `main.go` replace.
- `integration_test/http-client.go` and `http-clients.go` are not part of this model. They are a stand-alone hello server and a proxy reachability probe, outside the test matrix.
- `performance_test/plot.py` is not part of this model. It plots latency measurements and does no testing.
- Harness.Eval: the network is not modelled. The proxy's response and what the capture server handed off on its two channels are parameters, and the settle interval is not modelled.
- Harness.NewWireRequest: `url.Values.Encode` and `http.CanonicalHeaderKey` are function parameters, not their Go definitions.
- Harness.Eval: a captured header holds one value, the one `Header.Get` returns. The server's cookie parsing is modelled by `CookieJar` (the first cookie sent under each name).
- Harness.RunRequests: Go's map iteration order is a parameter, and each case's `Eval` verdict is given as a function of its name.
- Printing and the `fail` message are not modelled. Only the outcome is: which cases passed, which one failed, whether the server was closed, and the exit status.
- `main` only calls the three configurations' tests in sequence, and `fail` ends the process at the first failure. The model states each configuration's suite and not the sequence.
- The `TestRequest` templates are values. In Go each `NewTestRequest` call makes fresh maps, so no two cases share one. Values have the same effect, and aliasing is not modelled.
- In `integration_test/main.go` the expectation fields are written `containsSQLi` and `containsSQLiInBody`, while the struct declares `sqli` and `sqli_body`. The model reads them as the declared fields `sqli` and `sqliBody`.
- Harness.RunRequests: a failing run ends with exit status 0, as `fail` calls `os.Exit(0)`. This is modelled as written, although it hides failures from a CI job.
