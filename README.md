# twilio-go request layer and message iterator, in Dafny

This project models the core of the `twilio-go` client library. The core has
two parts:

- **The request composition layer** (`twilio/http.go`). `getFullUri` builds
  a URI for one of two API variants: the account-scoped *regular* API and
  the *lookup* API. Five verb helpers choose the method, the variant, the
  path and the form. `CreateRequest` builds the request: the form goes in
  the body for POST/PUT and in the query for GET, and every request gets
  basic auth and three fixed headers. `MakeRequest` chains four steps
  (create, send, read body, decode JSON) and returns at the first error.
- **The message service** (`twilio/messages.go`). `Create` posts a form and
  checks the status. `SendMessage` builds the form. `MessageIterator` is a
  lazy cursor over the paginated message list, with the fields `pos`,
  `messages` and `params`.

Layout:

- `wrappers.dfy`: `Option`, `Result` and the error kinds.
- `text.dfy`: `strings.Join` and `strconv.Itoa`, with the facts the URI
  proofs and the page-size parameter need.
- `http.dfy`: the URI builder, the verb helpers and the request factory.
  `RequestFor` specifies what a request looks like and `CreateRequest`
  builds it step by step. `Perform` specifies the dispatch chain and
  `MakeRequest` runs it with early returns.
- `http_properties.dfy`: lemmas that combine the verb helpers with the
  request factory.
- `messages.dfy`: the `Create` status mapping, the `SendMessage` form loop
  and the `MessageIterator` class.

Code outside the core is abstracted as follows:

- The form encoder (`url.Values.Encode`, WHATWG URL Standard section 5), the
  URL check inside `http.NewRequest`, the transport (`Client.Do`) and the
  body read (`ioutil.ReadAll`) are function-valued fields of `Http.Env`.
  The model assumes nothing about them. Each `Http.Response` carries its
  own body stream (an opaque handle), and the body read takes that stream,
  so two responses with the same status and headers can carry different
  bodies.
- `json.Unmarshal` is a `decode` parameter typed by the destination.
- `url.Parse(...).Query()` is the iterator's `queryOf`.
- Basic authentication (RFC 7617, section 2) is kept as the credential
  pair the request carries, not as an encoded header.

A verb helper is modelled as the `Call` it forwards to `MakeRequest`: the
method, the variant, the path and the form. Calling the helper is
`MakeRequest` applied to that `Call`.

Four behaviours of the code worth noting, all kept by the model:

- The regular variant appends `.json` after the whole path part. Fetch and
  update join the sid into the path first, so their URIs end in
  `/{sid}.json`.
- The body and the query depend on whether the form is nil, not on whether
  it is empty. A non-nil empty form therefore still gets a
  `Content-Type` header (POST/PUT) or a trailing `?` (GET).
- `UpdateResource` never forwards its form. The model keeps this:
  `UpdateDropsForm` proves the request is the same for every form.
- `twilio/messages.go:70` calls `MakeRequest` with four arguments and no
  `ApiType`, but `MakeRequest` takes five. `Messages.Create` sends what
  `CreateResource` sends: a POST to the regular variant with no sid.

## Model

| member | source | states |
|---|---|---|
| `Text.Join` | twilio/http.go:55-57 | `strings.Join`: empty for no parts, the part itself for one part, and always starting with the first part; `JoinSnoc` gives the separator placement |
| `Text.JoinSnoc` | twilio/http.go:55-57 | joining one more part adds exactly one separator, at the end; the URI shapes rest on this |
| `Text.Itoa` | twilio/messages.go:94 | the canonical decimal text of a number: non-empty, '-' first exactly for negative numbers, digits otherwise, and no leading zero ("0" only for zero) |
| `Text.ItoaRoundTrip` | twilio/messages.go:94 | reading the decimal text back gives the original number |
| `Http.SetValue` | twilio/messages.go:82-84 | `Values.Set` leaves the key with exactly one value and keeps every other key unchanged |
| `Http.AddValue` | twilio/messages.go:87 | `Values.Add`/`Header.Add` appends the value to the key's list and keeps every other key unchanged |
| `Http.FullUri` | twilio/http.go:53-58 | lookup: `LookupBaseUrl/LookupVersion/pathPart`, with no account and no suffix; regular: `BaseUrl/Version/Accounts/{sid}/{pathPart}.json`, with `.json` once at the very end |
| `Http.GetResource` | twilio/http.go:61-64 | fetch is a GET on the regular variant to `pathPart/sid`, with no form, so it carries neither a body nor a query |
| `Http.CreateResource` | twilio/http.go:66-68 | create is a POST on the regular variant to the bare `pathPart`; it forwards the form, which travels as the body exactly when it is non-nil, never as a query |
| `Http.UpdateResource` | twilio/http.go:70-73 | update is a POST on the regular variant to `pathPart/sid`; the form is dropped, so it carries neither a body nor a query |
| `Http.ListResource` | twilio/http.go:75-77 | list is a GET on the regular variant to the bare `pathPart`; it forwards the form, which travels as the query exactly when it is non-nil, never as a body |
| `Http.LookupResource` | twilio/http.go:79-82 | lookup is a GET on the lookup variant to `pathPart/sid`; it forwards the form, which travels as the query exactly when it is non-nil, never as a body |
| `Http.TargetUri` | twilio/http.go:117-120 | the URI is the full URI plus `?` and the encoded form exactly for a GET with a non-nil form; otherwise it is the full URI unchanged |
| `Http.RequestFor` | twilio/http.go:112-136 | fails exactly when the URI is rejected; otherwise: method and URI as given, the client's credential, always `Accept-Charset: utf-8`, `Accept: application/json` and `User-Agent: twilio-go/0.0.1`; body and `Content-Type` exactly for POST/PUT with a non-nil form, empty body otherwise |
| `Http.CreateRequest` | twilio/http.go:112-136 | the step-by-step construction (body choice, query append, header adds) yields exactly `RequestFor` |
| `Http.Perform` | twilio/http.go:85-109 | a response comes back only if create, send, read and decode all succeed; otherwise the error of the first failing step, in that order |
| `Http.MakeRequest` | twilio/http.go:85-109 | the chain with early returns yields exactly `Perform` |
| `HttpProperties.FetchAndUpdateUris` | twilio/http.go:61-73 | the fetch and update URIs are `.../Accounts/{account}/{pathPart}/{sid}.json` |
| `HttpProperties.CollectionUris` | twilio/http.go:66-77 | the create and list URIs are `.../{pathPart}.json`; list adds `?` and the encoded form only for a non-nil form |
| `HttpProperties.LookupUriIgnoresAccount` | twilio/http.go:79-82 | the lookup URI is `LookupBaseUrl/v1/pathPart/sid` (plus query), the same for every account |
| `HttpProperties.UpdateDropsForm` | twilio/http.go:70-73 | the update request is the same whatever form is supplied: empty body, no `Content-Type`, no query |
| `HttpProperties.DispatchSuccessCarriesCredential` | twilio/http.go:85-109 | a successful dispatch built its request with the client's credential and sent it |
| `Messages.CreateResultAsWritten` | twilio/messages.go:71-77 | as written, the status check never fires: the result is the message whenever `MakeRequest` succeeds, and `MakeRequest`'s error otherwise |
| `Messages.CreateResult` | twilio/messages.go:71-77 | the intended check: success exactly when `MakeRequest` succeeds with a status in 200-299; otherwise a remote service error with the status line, or `MakeRequest`'s error |
| `Messages.AsWrittenAcceptsServerError` | twilio/messages.go:74-75 | a 500 response is accepted by the check as written and rejected by the intended one |
| `Messages.Create` | twilio/messages.go:68-78 | posts the form to `.../Accounts/{account}/Messages.json` and maps the outcome with the intended status check |
| `Messages.MessageForm` | twilio/messages.go:81-89 | exactly one `Body`, one `From` and one `To` value; `MediaUrl` holds the URLs in input order when there are any, and is absent for nil or empty |
| `Messages.SendMessage` | twilio/messages.go:80-91 | the `Set`/`Add` loop builds exactly `MessageForm`, and that form is what gets created |
| `Messages.PageSizeParams` | twilio/messages.go:94 | the starting parameters are exactly `{PageSize: [Itoa(n)]}`, and that value reads back as the requested page size |
| `Messages.MessageIterator.ListPage` | twilio/messages.go:100 | the iterator's list call is a GET of `.../Accounts/{account}/Messages.json?` plus the encoded parameters with no body; it yields the decoded page when the dispatch succeeds (the response is discarded) and the dispatch's error otherwise |
| `Messages.MessageIterator.ListMessages` | twilio/messages.go:93-96 | a new iterator has `pos = 0`, an empty buffer and `params = {PageSize: [n]}` |
| `Messages.MessageIterator.Fetch` | twilio/messages.go:98-112 | on a list or next-page-URI failure: that error, and `pos`, `messages` and `params` unchanged; on success: `messages := page.messages`, `pos := 0`, `params := query of the next-page URI` |
| `Messages.MessageIterator.Next` | twilio/messages.go:115-128 | keeps `0 <= pos <= |messages|`. With a buffered item: yields `messages[pos]` and advances `pos`, with no fetch. Otherwise it fetches: a failure is returned and leaves the state unchanged; an empty page gives the end signal with `pos = |messages| = 0`, so the next call fetches again; a non-empty page yields its first message |

## Findings

| source | as written | input that shows it | evidently intended | confidence | as-written member | corrected member |
|---|---|---|---|---|---|---|
| twilio/messages.go:74 | `resp.StatusCode < 200 && resp.StatusCode > 299`, which no status satisfies | a create answered with status 500 is returned as a created message with a nil error | `resp.StatusCode < 200 \|\| resp.StatusCode > 299` | high (not executed) | `Messages.CreateResultAsWritten`, `Messages.AsWrittenAcceptsServerError` | `Messages.CreateResult` (used by `Messages.Create`) |

## Left out

- The transport is left out: `Client.Do`, the `http.Transport` with its 3050 ms response-header timeout, and connection handling. These are network I/O and timing; `Env.send` stands for all of them, and a timeout is one of its errors.
- `ioutil.ReadAll`, `json.Unmarshal`, `url.Values.Encode` and `url.Parse`/`Query` are library code and are oracles here. So is the URL check inside `http.NewRequest`; its check of the method string is not modelled.
- `resp.Body.Close` and the `glog` calls have no behavioural content.
- `CreateClient` is plain object construction: it stores the credential unchanged and wires the service back-pointers. `Http.Client` is that credential pair.
- `twilio/lookup.go` is not part of this model. `LookupPhoneNumber` only fixes two form values and calls `LookupResource`.
- The JSON record layouts (`MessageDetails`, `MessagePage`, `PhoneNumber`, `Carrier`) are not modelled. A page keeps only its messages and next-page URI.
- `Messages.Create`: on an error the source also returns the message as decoded so far, which may be partial. The model returns only the error.
- `Messages.MessageIterator.Next`: the source returns a pointer into the buffer; the model returns the message by value, so aliasing is not captured.
- `Http.Request`: basic auth is the credential pair, not its base64 `Authorization` header. Header names are the canonical spellings the source already uses, so canonicalisation is not modelled.
- `Http.ApiType` is a closed set of two values. In the source any `ApiType` other than lookup behaves as regular.
- A media URL is represented by its rendered text (`url.URL.String()`).
- Concurrency is not modelled: the iterator is single-consumer state, and the requests share no state.
