# HTTP call step of the end-to-end test driver

This project models the `HTTPCall` step of the Go end-to-end test driver
(`package driver`). A step sends one HTTP request to a service on
`127.0.0.1:<port>` and judges the answer:

- a zero `Timeout` is replaced by `DefaultTimeout` (10 s) inside `Run`, by
  changing the step itself;
- the status must be exactly 200;
- the body is compared only when an expected body is set;
- every expected response header is checked in one of three modes: `Any`
  (`"*"`, present and non-empty), `None` (`"-"`, absent or empty) or an exact,
  case-sensitive value.

Everything lives in `check.dfy`, module `Driver`:

- `HTTPCall` is a class with the step's six fields. It has a field-by-field
  constructor (the Go struct literal) and the `Get` constructor.
- `Run` fills in the timeout (`modifies this`timeout`, so no other field
  changes). It then hands the request to the network and judges the reply
  with `Check`.
- The network is a parameter `send: Request -> Exchange`; each run gets its
  own, so two runs of one step may get different replies. The `Request` holds
  the method, the port, the request headers and the timeout in effect. The
  `Exchange` is one of three things: the library rejects the request, the
  transport fails, or a `Response` arrives.
- A `Response` has a status, a body read (text or read failure) and a header
  lookup. The lookup gives the first value of a header, or `""` when the
  header is absent.
- `Check` runs the status, body-read and body checks in the source's order.
  It then calls `CheckHeaders`, the loop over the expected headers that
  returns at the first mismatch.
- The ghost predicate `MayReport` defines which outcomes are allowed. Go
  walks maps in an unspecified order, so when several headers fail, any one
  of them may be reported. The lemmas describe `MayReport` from the outside:
  when the step succeeds, which check wins, and what a header error proves.
- Go types are modelled exactly: `Port` is a `uint16` newtype. `Timeout` is a
  `Duration` newtype, a signed 64-bit count of nanoseconds.

## Model

| member | source | states |
|---|---|---|
| `Driver.BodyMatches` | test/envoye2e/driver/check.go:86-86 | the body check passes iff the expected body is empty or equals the observed body |
| `Driver.HeaderMatches` | test/envoye2e/driver/check.go:92-105 | one expected header against its observed first value: `"*"` needs a non-empty value, `"-"` needs an empty or absent one, anything else needs exact equality |
| `Driver.MayReport` | test/envoye2e/driver/check.go:60-108 | the outcomes the step may report for an exchange: request error, transport error, status error with port and code, read error, body error with both strings, then success iff all listed headers match, else a header error of some failing listed header |
| `Driver.EffectiveTimeout` | test/envoye2e/driver/check.go:57-59 | the timeout a step runs with is never zero, and a non-zero timeout is kept |
| `Driver.TimeoutFillIdempotent` | test/envoye2e/driver/check.go:57-59 | filling in the timeout twice gives the same value as once, and an unset timeout becomes the 10 s default |
| `Driver.HTTPCall.constructor` | test/envoye2e/driver/check.go:32-45 | a step built from a struct literal holds exactly the six given field values |
| `Driver.HTTPCall.Get` | test/envoye2e/driver/check.go:47-53 | `Get(port, body)` is a GET step with that port and expected body, no request or response headers, and timeout 0 |
| `Driver.HTTPCall.Run` | test/envoye2e/driver/check.go:55-109 | after a run the timeout is the filled-in value and no other field has changed; the request sent carries the method, the port, every request header and that timeout; the outcome is one that `MayReport` allows for the reply |
| `Driver.HTTPCall.Cleanup` | test/envoye2e/driver/check.go:110-110 | cleanup changes nothing and cannot fail, so it is safe with or without a prior run and any number of times |
| `Driver.RunTwice` | test/envoye2e/driver/check.go:57-59 | two runs in a row send the same request, with the timeout the first run filled in; each outcome is one `MayReport` allows for the reply that run got, even when the two replies differ |
| `Driver.Check` | test/envoye2e/driver/check.go:75-108 | the verdict on an exchange is always an outcome that `MayReport` allows: transport errors, then status, then body read, then body, then headers |
| `Driver.CheckHeaders` | test/envoye2e/driver/check.go:90-106 | the loop returns success iff every listed header matches; otherwise it names the observed and expected values of some listed header that fails |
| `Driver.WildcardsComplementary` | test/envoye2e/driver/check.go:92-100 | `"*"` passes iff the observed value is non-empty; `"-"` passes iff it is empty; the two are exact opposites |
| `Driver.LiteralHeaderMatchesItself` | test/envoye2e/driver/check.go:101-104 | any other expected value passes iff the observed value equals it exactly |
| `Driver.SucceedsIff` | test/envoye2e/driver/check.go:75-108 | success iff a response arrived with status 200, its body was read and matches, and every listed header matches |
| `Driver.StatusCheckedFirst` | test/envoye2e/driver/check.go:75-78 | a status other than 200 is always reported as a status error with the port and the code, whatever the body and headers |
| `Driver.BodyCheck` | test/envoye2e/driver/check.go:85-88 | an empty expected body never fails; a non-empty one fails iff it differs from the observed body, and the error carries both strings |
| `Driver.HeaderErrIsGenuine` | test/envoye2e/driver/check.go:90-106 | a header error comes only after the status, read and body checks passed, and it names a listed header that really fails |
| `Driver.UnlistedHeadersIgnored` | test/envoye2e/driver/check.go:90-91 | two responses that agree on the listed headers get the same verdicts |
| `Driver.VerdictExists` | test/envoye2e/driver/check.go:55-109 | every exchange has at least one allowed outcome |
| `Driver.VerdictDeterminedUpToHeader` | test/envoye2e/driver/check.go:75-108 | any two allowed outcomes are equal unless both are header errors |
| `Driver.SingleHeaderMismatchReported` | test/envoye2e/driver/check.go:90-106 | when exactly one listed header fails, that header's observed and expected values are reported |
| `Driver.XFooExamples` | test/envoye2e/driver/check.go:92-105 | worked cases for `X-Foo: bar`: `"*"` and `"bar"` pass, `"-"` and `"baz"` fail. Without the header, `"-"` passes and `"*"` fails |

`Run` ranges over `ResponseHeaders` (check.go:90), a Go map whose
iteration order is unspecified, so any failing listed header may be the one
reported.

## Left out

- Network I/O is not modelled. This covers `http.NewRequest`, `client.Do`,
  `ioutil.ReadAll` and `resp.Body.Close`. What they produce is the input
  `send: Request -> Exchange`.
- Which methods `http.NewRequest` rejects is not modelled. That is library
  behaviour; the model has it only as the `RequestRejected` exchange.
- The URL string `http://127.0.0.1:<port>` is left out. It is formatting only;
  the model keeps the port in the request.
- Header-name canonicalisation by `net/http` is left out. The header lookup
  is an uninterpreted function from name to first value.
- The diagnostic request dump and log line are left out. They do not affect
  the verdict.
- How the client enforces the timeout on the wall clock is left out. The
  model keeps only the stored `Timeout` value.
- The text of the error messages is left out. Outcomes carry the error kind
  and its payload (port and code, observed and expected body or header value).
- The `Step` interface and the `Params` argument are left out. `Step` is
  declared outside `check.go`, and `Run` ignores `Params`.
- Merging of request-header keys that canonicalise to the same name
  (check.go:64-66) is not modelled. `req.Header.Add` would turn keys such as
  `x-foo` and `X-Foo` into one header with two values; the request carries
  `RequestHeaders` as given.
