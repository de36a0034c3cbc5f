# DkHttp: a typed HTTP client facade, modelled in Dafny

`DkHttp` is a small client for a game engine's web request API. An instance
holds a header dictionary and a `contentTypeAsJson` flag (default `true`).
`Get<T>(url)` and `Post<T>(url, body)` finalize the headers (`Build`), set up and
send a request, and turn every outcome into a response object with the fields
`code`, `errCode` and `message`. Failures never escape as exceptions. Each call
ends in exactly one of four outcomes:

- an exception caught by the **outer** handler (in `Build`, while constructing
  the request, or while decoding the JSON body) gives `code = -1` (`Unknown`)
  and the exception's message;
- an exception caught by the **inner** handler (while copying headers onto the
  request, encoding the POST body, or sending) gives `code = (int)request.responseCode`
  and the exception's message;
- a **non-success** transport result gives `code = (int)request.responseCode`
  and `message = request.error`, and the body is not decoded;
- **success** returns the decoded body verbatim.

Files:

- `wrappers.dfy`: `Option`, and `Result` whose `Err` carries an exception message.
- `api_response.dfy`: the `Response` record, the `Unknown` status code and
  `Fresh`, a new response with only `code` and `message` set.
- `dk_http.dfy`: the header operations as functions (`InsertIfAbsent` for
  `TryAdd`, `AddOrThrow` for `Add`, `Finalize` for `Build`); the loop that
  copies headers onto the request; the classification `Classify`; the class
  `Client` with `SetRequestHeader`, `Build`, `Get` and `Post`, proved against
  the predicate `Reaches`, which says how far a call may get; and the
  properties.

The web request object and the JSON codec are inputs. A `Transport` value says
whether constructing the request throws, which headers the request refuses,
which status code the request reports before any response arrives, and how
sending a given `Request` ends. `decode` and `encode` are functions that either
give a value or fail with a message.

One might expect `Build` to add the JSON content type only when no
`Content-Type` header is present. The code instead calls `Dictionary.Add` on
the instance's own dictionary (`DkHttp.cs:160-164`), and `Add` throws when the
key is already there. Two things follow:

- a caller who sets `Content-Type` gets `code = -1` on the first call;
- once a call has run with the flag on, every later call on that instance,
  with the flag still on, gets `code = -1`.

`CallerContentType` proves the first; `SecondCallFails` proves the second for
any verbs, and `ReuseClient` shows it on any client for a POST followed by a
GET. An in-flight exception reports `(int)request.responseCode`, not `-1`. The
flag is a public field with no setter, kept as `Client.contentTypeAsJson`.

## Model

| member | source | states |
|---|---|---|
| `DkHttp.Client.constructor` | DkHttp.cs:25-27 | a new client has the flag on and no headers |
| `ApiResponse.Fresh` | DkHttp.cs:63-66 | a response the client builds itself keeps `errCode` at its default and carries the given `code` and `message` |
| `DkHttp.ToInt32` | DkHttp.cs:64 | the `(int)` cast of the `long` status code lands in the 32-bit range, agrees with its input modulo 2^32 and is the identity on values that fit |
| `DkHttp.InsertIfAbsent` | DkHttp.cs:29-33 | `TryAdd` adds the name with the value only when the name is absent, keeps an existing value, and leaves every other header alone |
| `DkHttp.Client.SetRequestHeader` | DkHttp.cs:29-33 | the dictionary becomes `InsertIfAbsent` of the old one, the flag is untouched, and the same instance is returned |
| `DkHttp.FirstHeaderWins` | DkHttp.cs:30-31 | writing a header a second time leaves the whole dictionary as the first write made it |
| `DkHttp.AddOrThrow` | DkHttp.cs:162 | `Dictionary.Add` throws the duplicate-key exception exactly when the key is present; otherwise it adds exactly that pair and keeps the rest |
| `DkHttp.Finalize` | DkHttp.cs:160-164 | with the flag off the headers are unchanged; with it on and no `Content-Type` exactly `Content-Type: application/json` is added; with it on and `Content-Type` present `Build` throws |
| `DkHttp.AfterBuild` | DkHttp.cs:42 | after `Build` the instance's dictionary keeps every earlier header and, with the flag on, contains `Content-Type` whether or not `Build` threw |
| `DkHttp.Client.Build` | DkHttp.cs:160-164 | the method's outcome and new dictionary are those of `Finalize`; a throwing `Build` changes nothing |
| `DkHttp.SetHeadersOnRequest` | DkHttp.cs:50-52 | the header loop succeeds exactly when the request refuses no header, and then the request carries exactly the instance's headers; otherwise the exception is that of some refused header |
| `DkHttp.Classify` | DkHttp.cs:58-94 | outer exceptions and decode failures give `-1` and the message; inner exceptions and non-success results give the truncated response code and the message or error text; a decoded body is returned verbatim |
| `DkHttp.Client.Perform` | DkHttp.cs:39-94 | one call leaves the dictionary as `AfterBuild` says and returns `Classify` of a stage the call can reach: build, construction, header, encoding and send faults in that order |
| `DkHttp.Client.Get` | DkHttp.cs:37-95 | a GET with no body, with the result and new header state of `Perform` |
| `DkHttp.Client.Post` | DkHttp.cs:97-158 | a POST whose body is the encoder's JSON, with the result and new header state of `Perform` |
| `DkHttp.PresetContentTypeFails` | DkHttp.cs:42 | with the flag on and `Content-Type` already present, every call returns `code = -1` with the duplicate-key message |
| `DkHttp.DecodeOnlyOnDelivery` | DkHttp.cs:58-67 | unless the transport delivered a body, the result does not depend on the decoder |
| `DkHttp.ErrCodeOnlyFromServer` | DkHttp.cs:83 | a result with an `errCode` is the decoded server payload, never a response the client built |
| `DkHttp.HeaderFaultNeverSends` | DkHttp.cs:69-78 | a refused header ends the call before sending, with the request's pending status code and a refused header's exception message |
| `DkHttp.EncodeFaultNeverSends` | DkHttp.cs:113 | a POST body that cannot be encoded ends the call before sending, with the pending status code and the encoder's message |
| `DkHttp.GetPostAgree` | DkHttp.cs:97-158 | when the transport treats the GET and the POST request alike and the body encodes, GET and POST reach exactly the same stages |
| `DkHttp.SecondCallFails` | DkHttp.cs:160-164 | for any header dictionary, once a call has run `Build` with the flag on, any later call with the flag on returns `code = -1` with the duplicate-key message, whatever the verb, transport or decoder |
| `DkHttp.ReuseClient` | DkHttp.cs:42-102 | on any client with the flag on, a POST followed by a GET: the GET returns `code = -1` with the duplicate-key message |
| `DkHttp.CallerContentType` | DkHttp.cs:29-42 | a caller who sets `Content-Type` and calls with the flag on gets `code = -1` with the duplicate-key message |
| `DkHttp.FirstCallDelivers` | DkHttp.cs:83 | a fresh client whose only request is delivered returns the decoded body verbatim, and it sent exactly `Content-Type: application/json` |

## Left out

- The engine's web request object, `SendWebRequest`, the upload and download handlers and `using` disposal: foreign I/O. A `Transport` input value stands for them.
- The `async`/`await` suspension of the task library: a scheduling concern. A call is modelled as one atomic step.
- The JSON codec (`Json2Obj`, `Obj2Json`): library code. It is modelled as `decode`/`encode` functions that may fail. A decoder that returns `null` is not modelled.
- UTF-8 encoding of the POST body: library code. The request carries the JSON text.
- Debug-only warning logging: it does not affect control flow.
- The reflection helpers that build a new `T`: modelled by `Fresh`. Response subtypes with fields beyond `code`, `errCode` and `message` are not modelled.
- Null header names and values are not modelled: a null name makes `SetRequestHeader` throw, and that exception is outside every handler; a null value is accepted by the dictionary and surfaces later as a header fault.
- Header names are compared case-sensitively, like the default dictionary comparer. The request object's own rules for header names are part of `Transport.headerFault`.
- The exact text of the duplicate-key exception depends on the .NET runtime. The model uses "An item with the same key has already been added. Key: Content-Type".
- Concurrent use of one instance: the code has no synchronization, and the model covers sequential calls only.
