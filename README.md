# A verified model of the twilioClient package

This project models the core of `twilioClient`, a Go client for Twilio's REST API
(accounts, applications, API keys, chat roles, chat services, push credentials and
notify services), in Dafny, and proves what the package promises about it.

The network is replaced by a value. Every call is modelled by the `Request` it would
send (verb, URL, query or form) and by how it turns the server's answer (an
`Exchange`: a transport failure, or a status and a body as the JSON decoder would see
it) into its result. Nothing is executed; every property below is proved for all inputs, except
`Client.HugeWaitWrapsToZero`, which is one example of overflow.

- `client.dfy` (`Client`, twilioClient/client.go): building GET/POST/DELETE requests,
  the status-code decisions of `get`, `post` and `delete`, and `NewTwilioClient`'s
  defaulting of base URLs and the retry timeout from environment values passed in as a
  parameter. The client never changes after construction, so it is a datatype and its
  accessors (`AccountSid()` … `NotifyBaseUrl()`) are its field selectors. `get` and
  `post` share one classification (`Classify`); `post` repeats `get`'s branch at
  client.go:127-137.
- `paging.dfy` (`Paging`, twilioClient/page.go): `PageIterator` as a class whose
  `Next` takes the server's answer as a parameter and returns the request it sent
  (none when it is exhausted). It is proved against three specification functions on
  the iterator's state as a value (`Route`, `Fetch`, `Advance`). The typed iterators
  of the seven resource files (`AccountPageIterator.Next`, `ChatRolePageIterator.Next`
  at chat_roles.go:169-177, `ChatServicePageIterator.Next` at chat_services.go:147-155,
  `PushCredentialPageIterator.Next` at push_credentials.go:99-107,
  `ApplicationPageIterator.Next` at applications.go:89-97, `KeyPageIterator.Next` at
  keys.go:76-84, `NotifyServicePageIterator.Next` at notify_services.go:92-100) have
  one body, modelled once as `ListIterator.Next`. `Drive` runs a typed iterator over
  a sequence of answers; the main lemma, `ListingThenExhaustion`, says that a listing
  of N pages takes exactly N successful calls and then `NoMoreResults` forever, with
  no further fetch. The two timestamp helpers take timestamps as integers.
- `services.dfy` (`Services`): the shape all seven services share: a base URL (main,
  chat or notify), a collection path and a suffix (".json" on the main API, none on
  the chat and notify APIs).
- `accounts.dfy`, `applications.dfy`, `keys.dfy`, `chat_roles.dfy`,
  `chat_services.dfy`, `push_credentials.dfy`, `notify_services.dfy`: one module per
  resource file. Each fixes its path, states its exact URLs, and renders its
  enumerations. Account deletion is a POST of `Status=closed`; every other `Delete`
  is an HTTP DELETE that succeeds only on 204.
- `text.dfy` (`Text`): Go's `strings.Title`, the fallback of every enumeration's
  `ToString`, written out for ASCII (its separator rule, white space beyond ASCII
  included), with the lemmas the enumeration proofs need: title-casing is idempotent
  and never yields a string that starts with a lower-case letter.
- `wrappers.dfy` (`Wrappers`): `Option` and `Result`.

Behaviours of the code worth knowing:

- `get` and `post` accept only 200 and 201 (client.go:89, 127). Every other status is
  an error, including the other 2xx codes.
- `get` assigns the encoded parameters to the URL's query. Any query string already
  in the target, for instance in a stored next-page URI, is dropped rather than kept
  (client.go:66). `GetRequest` therefore keeps the URL only up to its first '?' or '#'.
- The default chat and notify base URLs end in '/' (client.go:30-38) and every
  service adds another.
  With the defaults, their URLs therefore contain "//" (`Services.DefaultBasesDoubleSlash`).
- `shouldContinuePaging` (page.go:92-100) is false when the earliest result is exactly
  at `start`, yet `containsResultsInRange` (page.go:83-90) counts `start` as in range.
  Neither helper has a caller in the package; a caller that stops paging once
  `shouldContinuePaging` is false can miss older results exactly at `start`
  (`Paging.StopPagingLeavesNothingAfterStart`).

## Model

| member | source | states |
|---|---|---|
| Client.Classify | twilioClient/client.go:89-99 | `get` and `post` succeed exactly on status 200 or 201 with a body that decodes into the target (and return that value); 500 gives `Error{"Server Error"}`; every other status gives the `TwilioError` read from the body; a transport failure is passed through; a 200/201 body that does not decode is a decode error |
| Client.ServerErrorIgnoresBody | twilioClient/client.go:128-129 | on status 500 the result is the generic server error whatever the body holds (the same branch in `post` and `get`) |
| Client.ErrorBodyDecodeFailureDropped | twilioClient/client.go:92-96 | for any status other than 200, 201 and 500 the result is the `TwilioError` left by the decoder, whether or not decoding the error body succeeded |
| Client.ClassifyDelete | twilioClient/client.go:158-162 | `delete` succeeds exactly when the status is 204 and otherwise fails with an error carrying that status; the body is never read |
| Client.GetRequest | twilioClient/client.go:60-66 | `get` sends a GET whose parameters are the query (empty when nil) to the target URL up to its first '?' or '#' |
| Client.PostRequest | twilioClient/client.go:102-103 | `post` sends a POST to the target as given, with the form (empty when nil) as its body |
| Client.DeleteRequest | twilioClient/client.go:140-141 | `delete` sends a DELETE to the target as given, with no parameters |
| Client.Get | twilioClient/client.go:60-100 | `get` requests the target up to its query with the query parameters, and succeeds exactly on 200/201 with a decodable body, classified as `Classify` says |
| Client.Post | twilioClient/client.go:102-138 | `post` requests the target with the form, and succeeds exactly on 200/201 with a decodable body, classified as `Classify` says |
| Client.Delete | twilioClient/client.go:140-163 | `delete` requests the target with no parameters, succeeds exactly on 204 and otherwise fails with the status, or with the transport error |
| Client.NilQueryIsEmpty | twilioClient/client.go:61-63 | `get` with nil query parameters sends the same request and returns the same result as with empty ones |
| Client.UrlWithoutQuery | twilioClient/client.go:65-66 | the address `get` keeps once it overwrites the target's query: the longest prefix of the URL free of '?' and '#' |
| Client.GetKeepsPlainUrl | twilioClient/client.go:65-66 | a GET goes to the target URL unchanged exactly when that URL carries no query string or fragment |
| Client.NewTwilioClient | twilioClient/client.go:24-58 | credentials are stored as given; each base URL is its environment value when non-empty and otherwise the default ("https://api.twilio.com/2010-04-01", "https://chat.twilio.com/v2/", "https://notify.twilio.com/v1/"), so none is empty; the retry timeout is 60 s when the parsed wait is 0; otherwise it is the wait times 10^9 nanoseconds wrapped to a signed 64-bit integer, which is exact for waits within ±9 223 372 036 s |
| Client.WrapInt64 | twilioClient/client.go:52 | the `time.Duration` product wraps as a signed 64-bit integer: the result is in the int64 range, congruent to the product modulo 2^64, and equal to it whenever it fits |
| Client.HugeWaitWrapsToZero | twilioClient/client.go:40-52 | a wait of 2^55 seconds overflows the duration to a zero timeout |
| Paging.NewCursor | twilioClient/page.go:60-68 | a new iterator has count 0, no valid next-page URI, and keeps `data` and `pathPart` as given |
| Paging.ResumeCursor | twilioClient/page.go:70-81 | for a non-empty URI (the source panics on ""): count 0, a valid cursor equal to the URI, empty `data` and empty `pathPart` |
| Paging.Route | twilioClient/page.go:44-52 | a valid stored cursor is fetched with empty parameters first; otherwise the first call fetches `pathPart` with `data`; otherwise no request is made, exactly when the cursor is invalid and count > 0 |
| Paging.Fetch | twilioClient/page.go:42-55 | `Next` returns `NoMoreResults` when it sends nothing and otherwise the result of `get` on the server's answer; success implies a request went out and got 200/201 |
| Paging.Advance | twilioClient/page.go:53-57 | count grows by exactly one on success and is unchanged on any error; the cursor, `data` and `pathPart` never change |
| Paging.PageIterator.constructor | twilioClient/page.go:60-68 | `NewPageIterator` yields the state `NewCursor(data, pathPart)` |
| Paging.PageIterator.Resume | twilioClient/page.go:70-81 | `NewNextPageIterator` requires a non-empty URI and yields `ResumeCursor(uri)` |
| Paging.PageIterator.SetNextPageURI | twilioClient/page.go:34-40 | stores its argument verbatim, valid or not, and changes nothing else |
| Paging.PageIterator.Next | twilioClient/page.go:42-58 | sends the request `Route` names (none when exhausted), returns `Fetch`'s result and leaves the state `Advance` gives |
| Paging.ListStep | twilioClient/accounts.go:121-129 | a typed `Next` sends what the shared `Next` sends; on error it returns that error and leaves the state untouched; on success it counts the page and stores the page's own `NextPageURI` as the cursor |
| Paging.ListIterator.constructor | twilioClient/accounts.go:116-118 | the typed iterator wraps the given page iterator |
| Paging.ListIterator.Next | twilioClient/accounts.go:121-129 | the typed `Next` (the same body in all seven resource files) is `ListStep` on the wrapped iterator's state |
| Paging.ExhaustedForever | twilioClient/page.go:50-51 | once the cursor is invalid and count > 0, every further call returns `NoMoreResults`, sends nothing and leaves the state unchanged, whatever the server would answer |
| Paging.ListingFetchesEveryPage | twilioClient/page.go:42-58 | call i of a fresh typed iterator (i < N) sends the collection request when i = 0 and otherwise page i-1's cursor, and returns page i |
| Paging.ListingThenNoMoreResults | twilioClient/page.go:42-58 | every call after the N pages of a listing returns `NoMoreResults` and sends nothing |
| Paging.ListingCountsPages | twilioClient/page.go:42-58 | after the whole listing the iterator's count is N |
| Paging.DriveListing | twilioClient/page.go:42-58 | from the state after k pages, the remaining pages are fetched in order and every later call returns `NoMoreResults`; the inductive step behind the listing lemmas |
| Paging.ListingThenExhaustion | twilioClient/page.go:42-58 | if the server returns pages 1..N and only page N lacks a next-page URI, a fresh typed iterator makes exactly N successful calls (the collection first, then each page's cursor) and every later call returns `NoMoreResults` without a fetch; the final count is N |
| Paging.ResumeFetchesCursorFirst | twilioClient/page.go:70-81 | an iterator built from a next-page URI skips the collection and first fetches that URI with empty parameters |
| Paging.FailureRetriesSameRequest | twilioClient/page.go:53-55 | after a failed fetch the state is unchanged, so the next call repeats the same request |
| Paging.ContainsResultsInRange | twilioClient/page.go:83-90 | true exactly when some result r satisfies start <= r < end |
| Paging.ShouldContinuePaging | twilioClient/page.go:92-100 | for a non-empty list (the source panics on an empty one), true exactly when the last result is strictly after start |
| Paging.StopPagingLeavesNothingAfterStart | twilioClient/page.go:93-99 | when paging stops, no older result lies after start; the only older results still in range would be exactly at start |
| Paging.ContinuePagingSeesRange | twilioClient/page.go:93-99 | with results newest first, continuing means every result on the page is after start, and the page has a result in range when its earliest is before end |
| Services.GetPageIterator | twilioClient/accounts.go:114-119 | every `GetPageIterator` returns a fresh iterator whose state is `NewCursor(data, collection URL)` |
| Services.SamePathSameUrls | twilioClient/notify_services.go:47-49 | two services with the same path and suffix address the same collection exactly when their base URLs are equal |
| Services.DefaultBasesDoubleSlash | twilioClient/client.go:30-38 | with the default chat and notify bases (which end in '/'), every collection URL of those APIs contains "//" before the path |
| Accounts.StatusToString | twilioClient/accounts.go:38-49 | "active", "suspended" and "closed" render as themselves; every other value renders as `strings.Title` of itself |
| Accounts.StatusToStringIdempotent | twilioClient/accounts.go:38-49 | rendering a rendered status gives the same string |
| Accounts.TypeToString | twilioClient/accounts.go:56-65 | "Trial" and "Full" render as themselves; every other value as `strings.Title` of itself |
| Accounts.TypeToStringIsTitle | twilioClient/accounts.go:56-65 | the account-type rendering equals `strings.Title` on every input, known constant or not |
| Accounts.Create | twilioClient/accounts.go:71-76 | POST of the caller's form to BaseUrl + "/Accounts.json", result classified as by `post` |
| Accounts.Update | twilioClient/accounts.go:78-84 | POST of the caller's form to BaseUrl + "/Accounts/" + sid + ".json" |
| Accounts.Delete | twilioClient/accounts.go:86-94 | a POST (never a DELETE) to the item URL whose form is exactly {Status: ["closed"]}, result classified as by `post` |
| Accounts.Get | twilioClient/accounts.go:96-103 | GET of BaseUrl + "/Accounts/" + sid + ".json" with empty query parameters |
| Accounts.GetPageIterator | twilioClient/accounts.go:114-119 | a fresh iterator over BaseUrl + "/Accounts.json" with the caller's data |
| Accounts.GetPage | twilioClient/accounts.go:105-108 | the first `Next` of a fresh iterator is a GET of BaseUrl + "/Accounts.json" with the caller's query, result classified as by `get` |
| ChatRoles.RoleTypeToString | twilioClient/chat_roles.go:31-40 | "channel" and "deployment" render as themselves; every other value as `strings.Title` of itself |
| ChatRoles.RoleTypeToStringIdempotent | twilioClient/chat_roles.go:31-40 | rendering a rendered role type gives the same string |
| ChatRoles.PermissionToString | twilioClient/chat_roles.go:69-112 | each of the 19 known permissions renders as exactly its constant's string; every other value as `strings.Title` of itself |
| ChatRoles.PermissionToStringIdempotent | twilioClient/chat_roles.go:69-112 | rendering a rendered permission gives the same string |
| ChatRoles.Create | twilioClient/chat_roles.go:123-128 | POST to ChatBaseUrl + "/Roles", no ".json" suffix |
| ChatRoles.Update | twilioClient/chat_roles.go:130-136 | POST to ChatBaseUrl + "/Roles/" + sid |
| ChatRoles.Delete | twilioClient/chat_roles.go:138-142 | HTTP DELETE of ChatBaseUrl + "/Roles/" + sid, successful exactly on status 204 |
| ChatRoles.Get | twilioClient/chat_roles.go:144-151 | GET of ChatBaseUrl + "/Roles/" + sid with empty query parameters |
| ChatRoles.GetPageIterator | twilioClient/chat_roles.go:162-167 | a fresh iterator over ChatBaseUrl + "/Roles" with the caller's data |
| ChatRoles.GetPage | twilioClient/chat_roles.go:153-156 | the first `Next` of a fresh iterator: a GET of ChatBaseUrl + "/Roles" with the caller's query |
| ChatServices.WebhookEventToString | twilioClient/chat_services.go:63-90 | each of the 11 known webhook events renders as exactly its constant's string; every other value as `strings.Title` of itself |
| ChatServices.WebhookEventToStringIdempotent | twilioClient/chat_services.go:63-90 | rendering a rendered event gives the same string |
| ChatServices.Create | twilioClient/chat_services.go:101-106 | POST to ChatBaseUrl + "/Services" |
| ChatServices.Update | twilioClient/chat_services.go:108-114 | POST to ChatBaseUrl + "/Services/" + sid |
| ChatServices.Delete | twilioClient/chat_services.go:116-120 | HTTP DELETE of ChatBaseUrl + "/Services/" + sid, successful exactly on status 204 |
| ChatServices.Get | twilioClient/chat_services.go:122-129 | GET of ChatBaseUrl + "/Services/" + sid with empty query parameters |
| ChatServices.GetPageIterator | twilioClient/chat_services.go:140-145 | a fresh iterator over ChatBaseUrl + "/Services" with the caller's data |
| ChatServices.GetPage | twilioClient/chat_services.go:131-134 | the first `Next` of a fresh iterator: a GET of ChatBaseUrl + "/Services" with the caller's query |
| PushCredentials.CredentialTypeToString | twilioClient/push_credentials.go:31-42 | "apn", "fcm" and "gcm" render as themselves; every other value as `strings.Title` of itself |
| PushCredentials.CredentialTypeToStringIdempotent | twilioClient/push_credentials.go:31-42 | rendering a rendered credential type gives the same string |
| PushCredentials.Create | twilioClient/push_credentials.go:53-58 | POST to ChatBaseUrl + "/Credentials" |
| PushCredentials.Update | twilioClient/push_credentials.go:60-66 | POST to ChatBaseUrl + "/Credentials/" + sid |
| PushCredentials.Delete | twilioClient/push_credentials.go:68-72 | HTTP DELETE of ChatBaseUrl + "/Credentials/" + sid, successful exactly on status 204 |
| PushCredentials.Get | twilioClient/push_credentials.go:74-81 | GET of ChatBaseUrl + "/Credentials/" + sid with empty query parameters |
| PushCredentials.GetPageIterator | twilioClient/push_credentials.go:92-97 | a fresh iterator over ChatBaseUrl + "/Credentials" with the caller's data |
| PushCredentials.GetPage | twilioClient/push_credentials.go:83-86 | the first `Next` of a fresh iterator: a GET of ChatBaseUrl + "/Credentials" with the caller's query |
| Applications.Create | twilioClient/applications.go:43-48 | POST to BaseUrl + "/Applications.json" |
| Applications.Update | twilioClient/applications.go:50-56 | POST to BaseUrl + "/Applications/" + sid + ".json" |
| Applications.Delete | twilioClient/applications.go:58-62 | HTTP DELETE of BaseUrl + "/Applications/" + sid + ".json", successful exactly on status 204 |
| Applications.Get | twilioClient/applications.go:64-71 | GET of BaseUrl + "/Applications/" + sid + ".json" with empty query parameters |
| Applications.GetPageIterator | twilioClient/applications.go:82-87 | a fresh iterator over BaseUrl + "/Applications.json" with the caller's data |
| Applications.GetPage | twilioClient/applications.go:73-76 | the first `Next` of a fresh iterator: a GET of BaseUrl + "/Applications.json" with the caller's query |
| Keys.Create | twilioClient/keys.go:30-35 | POST to BaseUrl + "/Keys.json" |
| Keys.Update | twilioClient/keys.go:37-43 | POST to BaseUrl + "/Keys/" + sid + ".json" |
| Keys.Delete | twilioClient/keys.go:45-49 | HTTP DELETE of BaseUrl + "/Keys/" + sid + ".json", successful exactly on status 204 |
| Keys.Get | twilioClient/keys.go:51-58 | GET of BaseUrl + "/Keys/" + sid + ".json" with empty query parameters |
| Keys.GetPageIterator | twilioClient/keys.go:69-74 | a fresh iterator over BaseUrl + "/Keys.json" with the caller's data |
| Keys.GetPage | twilioClient/keys.go:60-63 | the first `Next` of a fresh iterator: a GET of BaseUrl + "/Keys.json" with the caller's query |
| NotifyServices.Create | twilioClient/notify_services.go:46-51 | POST to NotifyBaseUrl + "/Services" |
| NotifyServices.Update | twilioClient/notify_services.go:53-59 | POST to NotifyBaseUrl + "/Services/" + sid |
| NotifyServices.Delete | twilioClient/notify_services.go:61-65 | HTTP DELETE of NotifyBaseUrl + "/Services/" + sid, successful exactly on status 204 |
| NotifyServices.Get | twilioClient/notify_services.go:67-74 | GET of NotifyBaseUrl + "/Services/" + sid with empty query parameters |
| NotifyServices.GetPageIterator | twilioClient/notify_services.go:85-90 | a fresh iterator over NotifyBaseUrl + "/Services" with the caller's data |
| NotifyServices.GetPage | twilioClient/notify_services.go:76-79 | the first `Next` of a fresh iterator: a GET of NotifyBaseUrl + "/Services" with the caller's query |
| NotifyServices.SharesChatServicePath | twilioClient/notify_services.go:11 | notify and chat services share the path "Services"; their collection URLs coincide exactly when the two base URLs do |

## Left out

- The HTTP transport: `http.NewRequest`, `httpClient.Do`, reading the body, basic
  authentication and the Content-Type header (client.go:65-87, 103-125, 141-156). This
  is network I/O. Its failures are the `Failed` answer, which the model passes through
  as a transport error.
- `get` sets the query on the request before it checks `http.NewRequest`'s error
  (client.go:65-70). A malformed URL therefore panics instead of returning that error.
  This belongs to the transport and is not modelled.
- JSON encoding and decoding and `url.Values.Encode`: these are library calls. A body
  is modelled as what the two decoders would produce. A decoded page is its next-page
  cursor plus its records. Form and query data are a map, and a nil `url.Values` is
  `None`.
- The declarations of `TwilioError` and `Error` are not part of this model. The
  structured error is given the four fields of the API's error body.
- `os.Getenv` and `strconv.Atoi`: the environment values, and the integer `Atoi`
  returned for TWILIO_API_WAIT, are parameters. `Atoi` gives 0 when the variable is unset or
  not a number, and 2^63−1 or −2^63 when the numeral is out of range.
- `strings.Title` on non-ASCII letters: Unicode case tables are not modelled, so such
  letters are left as they are. Known constants are all ASCII.
- `time.Time`: timestamps are integers with their order.
- `context.Context` arguments: they are accepted and never used.
- The `fmt.Println` debugging output in `Next` (page.go:48).
- The client's `HttpClient` field, its `Accounts` back-pointer, and `RetryTimeout`
  beyond its initial value. The request code never consults them.
- The `twilioClient` pointer held by `PageIterator`: it only supplies credentials to
  the transport.
- The field layouts of the resource records (Account, ChatRole, …): a record is a map
  from field name to value. `Create`, `Update`, `Get` and the Account `Delete` also
  return their (zeroed or partly decoded) record beside a non-nil error; the model's
  `Result` keeps only the error.
- The reporting-only fields of the page envelope (start, end, total, page size,
  previous and first page URIs).
- Paging.PageIterator.Next: `count` is an unbounded natural number. The source's `uint`
  would wrap only after 2^64 successful fetches, so this wrap-around is not modelled.
- Thread safety of `PageIterator`: concurrency is out of scope.
