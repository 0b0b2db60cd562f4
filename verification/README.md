# cdp-fetch in Dafny

A model of `fetch.go` from cdp-fetch. That Go library makes an HTTP request from inside a browser page that it controls over the DevTools protocol. It does three things, and each becomes one Dafny module:

- **`FetchRequest`** (`request.dfy`): the `Request` struct and the JSON object `json.Marshal` builds from it. The object's keys are fixed by the struct tags. The eight string options carry `omitempty`, so an empty one is left out. `headers` has no `omitempty` and is always written. Keys come in struct declaration order. The object is a sequence of members, each naming the struct field it was written for.
- **`RequestJson`** (`json.dfy`): `Request.Marshall`, meaning the text `{"key":value,...}` of that object. How one string or one map of strings is rendered stays abstract: escaping and the order of map keys are up to an `Encoder` value, a pair of total functions. `json.Marshal` cannot fail on this struct, so `Marshall` always returns `Ok`.
- **`FetchScript`** (`script.dfy`): `makeFetchJS`. The script is plain concatenation: a fixed head, the URL, the serialised options, and a fixed tail. `Assemble` routes a marshal result. An error comes back with the empty script. A success comes back with the script and no error. The URL is **not** escaped. The model proves two consequences. For a URL without `"`, the text between the fixed head and the first double quote is the URL. A URL containing `",` puts a quote there early, so two different (URL, options) pairs can produce the same script. The model does not interpret JavaScript: a backslash or a line break in the URL can change the string literal further, and that is not modelled.
- **`FetchCall`** (`fetch.dfy`): the control flow of `Fetch.Fetch`. The page's evaluation of the script and the `Unmarshal` into `Response` are function parameters. `Call` records three things: the response pointer returned, the error returned, and which script, if any, was handed to the page.
- **`Results`** (`results.dfy`): `Option` and `Result`. They stand in for nil pointers, nil errors and Go's `(value, error)` returns.

Go strings and byte slices are both modelled as `string`, one `char` per byte. Because `method` is a Dafny keyword, the field Go calls `Method` is `httpMethod`. For the same kind of reason, the `Response` field Go calls `Type` is `kind`.

## Model

| member | source | states |
|---|---|---|
| FetchRequest.EncodeFrom | fetch.go:19-35 | Each member written for the fields from position n on holds that field's value in the request. Members appear in strictly increasing declaration position, so no key repeats, and none comes before position n. |
| FetchRequest.ToObject | fetch.go:19-39 | The object `json.Marshal(req)` writes. Every member holds its field's value, and members follow the struct's declaration order. |
| FetchRequest.FindEncodeFrom | fetch.go:20-34 | The members written for the fields from position n on include one for field f exactly when f is at position n or later and is emitted, and that member holds f's value. |
| FetchRequest.LookupIsFind | fetch.go:20-34 | The tag names are distinct, so looking up a field's JSON key in any object finds the member written for that field. |
| FetchRequest.LookupEncodeFrom | fetch.go:20-34 | Reading field f back from the members for positions n and later gives f's value when f is at position n or later and is emitted. Otherwise the key is absent. |
| FetchRequest.KeyPresentIffEmitted | fetch.go:20-34 | A field's JSON key is in the object exactly when the field is emitted. A field without `omitempty` is always emitted; the others are emitted only when non-empty. |
| FetchRequest.StringOptionsOmittedWhenEmpty | fetch.go:20-34 | `method`, `body`, `mode`, `credentials`, `cache`, `redirect`, `referrer` and `integrity` each appear in the object if and only if the corresponding string is non-empty. |
| FetchRequest.HeadersAlwaysPresent | fetch.go:21 | The `headers` key is present whatever the map holds, including an empty map, and it holds that map. |
| FetchRequest.DecodeEncode | fetch.go:19-39 | Dropping empty options loses no information. Reading the object back into a zero-valued Request, with absent keys left empty, gives the original request. |
| RequestJson.Marshall | fetch.go:37-39 | `Marshall` never returns an error. Its text is a JSON object that opens with `{"` (it is never empty, since `headers` is always present) and closes with `}`. |
| RequestJson.MarshallLeadsWithMethodAndHeaders | fetch.go:19-22 | The serialised options start with `"method":…,` exactly when a method is set. The `"headers":` member always comes next. |
| RequestJson.MarshallOnlyHeaders | fetch.go:20-38 | When all eight string options are empty, the serialised options are exactly `{"headers":` + the rendered map + `}`. |
| FetchScript.Script | fetch.go:70-85 | The script's length is 218 + \|url\| + \|reqBytes\|. It starts with the fixed 37-character head. Then come the URL verbatim, `",`, and the options verbatim. It ends with a fixed 179-character tail that does not depend on the inputs. |
| FetchScript.Assemble | fetch.go:65-86 | There is an error exactly when marshalling failed. In that case the script is empty and the error is the marshalling error. Otherwise the script is `Script(url, reqBytes)`. |
| FetchScript.MakeFetchJS | fetch.go:65-86 | Building the script for a request never fails. The script embeds the URL and the request's serialised options. |
| FetchScript.UrlRecovered | fetch.go:74-77 | For a URL without a double quote, the text between the fixed head and the first double quote of the script is that URL. Backslash escapes are not interpreted. |
| FetchScript.ScriptInjective | fetch.go:74-77 | For URLs without a double quote, equal scripts come from equal URLs and equal serialised options. |
| FetchScript.UrlNotEscaped | fetch.go:74-77 | Because the URL is not escaped, the URL `a",x` with options `y` produces the same script as the URL `a` with options `x",y`. The text up to the first double quote after the head is then `a`. |
| FetchCall.Route | fetch.go:51-63 | Exactly one of response and error is returned. A build error is returned as is, and nothing is evaluated. An evaluation error is returned as is, with no response. After a successful evaluation the decoded response is returned with no error, whether or not decoding failed. |
| FetchCall.Fetch | fetch.go:51-63 | The page always evaluates the script built from the URL and the serialised request. `Fetch` returns an error exactly when that evaluation fails, and it is that evaluation error, with no response. After a successful evaluation it returns the decoded response, whatever the decode error. |
| FetchCall.RouteChecked | fetch.go:51-63 | Corrected routing. Exactly one of response and error is returned. The error is the build error, else the evaluation error, else the decode error. There is no error exactly when all three stages succeed, and then the decoded response is returned. |
| FetchCall.FetchChecked | fetch.go:51-63 | The corrected `Fetch` evaluates the same script and returns exactly one of response and error. An evaluation error is the call's error. After a successful evaluation the decode error is the call's error. With no error, the decoded response is returned. |
| FetchCall.DecodeErrorDropped | fetch.go:60-62 | On a concrete input where decoding fails, `Route` returns the partly filled response and no error. `RouteChecked` returns the decode error and no response. |

## Left out

- `NewFetch`, the `rod.Page` handle and `page.Evaluate`: they are foreign calls into the browser-control library. Evaluation is a function parameter from script to `Result`. The page's state, the transport, and the `ByPromise` await are not modelled.
- String and map rendering inside `encoding/json`: escaping of strings (section 7 of RFC 8259, plus Go's HTML escaping), the sorted order of keys inside `headers`, and the replacement of invalid UTF-8. All of these are behind the abstract `Encoder`.
- `null` versus `{}` for a nil versus an empty `Headers` map: the model has one kind of map. Both forms are still written under the `headers` key.
- `Unmarshal` into `Response` and the canonical form of `http.Header`: decoding is a function parameter that returns the partly filled response and the decode error.
- `FetchRequest.FromObject` reads keys back by exact name, keeping the last duplicate. Go's decoder also matches keys case-insensitively. That matters only for objects this model never produces.
- The JavaScript meaning of the script (the in-page fetch, header flattening with `e.slice(1)`, `resp.text()`): to the Go code this is constant text, and it is modelled as such.
- Concurrent use of one page by several calls: `fetch.go` has no concurrency of its own.

## Findings

| source | as written | input that shows it | evidently intended | confidence | as-written member | corrected member |
|---|---|---|---|---|---|---|
| fetch.go:60-62 | The result of `Unmarshal` is assigned to `err`, and then `resp, nil` is returned, so the decode error is dropped. | Evaluation resolves to a value whose `status` is not a number. Decoding reports an error, yet `Fetch` returns the partly filled Response (the other fields are still decoded) and a nil error. | Return the decode error. Give a response only when decoding succeeds. | not executed; high (the error is assigned and never read) | FetchCall.DecodeErrorDropped | FetchCall.RouteChecked |
