# room-reveal: the edit pipeline, the listing scraper and their clients, in Dafny

room-reveal lets a user upload a photo of a room and refine it through a chat of
edit requests. It can also import a property listing from ImmoScout24. This project
models the server-side logic and the client calls that unwrap it:

- **Edit pipeline** (`edit-room-image` edge function):
  - It checks the API key, the three request fields and the caller.
  - It numbers the new turns after the room's highest `edit_order`, then appends a
    "user" turn.
  - It submits the edit to the image provider and polls at most 60 times for the
    result.
  - It strips an optional data-URL header from the result and base64-decodes it.
  - It uploads the bytes to the `room-images` bucket and appends an "assistant" turn
    with the public URL.
  - Finally it points the room's `current_image_url` at that URL.
  - Every thrown error becomes a status-500 `{error}` response, and nothing is
    rolled back.
- **Listing scraper** (`scrape-immoscout` edge function):
  - It checks the request, starts the scraper run, fetches its dataset and takes
    the first item.
  - It normalises that item into `{title, address, pictures}` with JavaScript `||`
    coalescing over candidate field names and with filtering of picture entries.
- **Clients** (`src/api2_flux.ts`, `src/api2_immo.ts`):
  - Each does a three-way branch over the invocation result: invocation error,
    `success` not truthy, or success.

## How the model is built

- **Js**: parsed JSON values, with `undefined` modelled as `None`; JavaScript
  truthiness; the `||` operator; property reads with optional chaining; and the
  `{error}` response.
- **Base64**: canonical base64 as in section 4 of RFC 4648, with round trips in both
  directions.
- **ResultDecoder**: the comma split and decoding of the provider's sample, with the
  data-URL round trip of section 3 of RFC 2397.
- **Poller**:
  - The provider is injected: a submit reply, and one reply per status query.
  - `PollForResult` is the bounded loop.
  - It is proved equal to the recursive reference `PollFrom`, whose behaviour is
    characterised by lemmas.
- **EditPipeline**:
  - `Edit` is the reference definition of one request over a store snapshot (the
    `room_edits` rows in order, each room's current image, and the bucket's blobs).
    The failure of each backend call, the caller's identity, the environment and the
    provider are parameters.
  - The class `RoomStore` holds the same three collections as fields. Its step
    methods update them in place, and `EditRoomImage` is proved to produce exactly
    `Edit`'s response and new state.
  - Per-room strictly increasing `edit_order` is an invariant it keeps.
- **ScrapeListing**: the normaliser and `Scrape`, the reference definition of one
  request. The scraper service's two replies are parameters, and the calls issued
  are recorded.
- **Envelope**, **FluxClient**, **ImmoClient**: the client unwrapping, plus
  end-to-end lemmas from the server's response to the client's result.

## Model

| member | source | states |
|---|---|---|
| `Js.ErrorResponse` | supabase/functions/edit-room-image/index.ts:137-146 | a thrown error becomes status 500 with the message under `error` |
| `Js.NatToStringValue` | supabase/functions/scrape-immoscout/index.ts:43 | the decimal text a status number is interpolated as denotes that number |
| `Base64.DecodeEncode` | supabase/functions/edit-room-image/index.ts:86-89 | decoding the canonical encoding of any bytes yields those bytes |
| `Base64.EncodeDecode` | supabase/functions/edit-room-image/index.ts:86-89 | any text the decoder accepts is exactly the encoding of the bytes it returns, so non-canonical text is rejected |
| `Base64.DecodeIffEncode` | supabase/functions/edit-room-image/index.ts:86-89 | a text decodes to `b` if and only if it is the encoding of `b` |
| `Base64.EncodeHasNoComma` | supabase/functions/edit-room-image/index.ts:80-84 | no encoding contains a comma, so the comma split never cuts into base64 data |
| `ResultDecoder.Split` | supabase/functions/edit-room-image/index.ts:83 | `split` gives at least one piece, and no piece holds the separator |
| `ResultDecoder.JoinSplit` | supabase/functions/edit-room-image/index.ts:83 | joining the pieces with the separator gives the text back, so nothing is lost |
| `ResultDecoder.StripHeader` | supabase/functions/edit-room-image/index.ts:80-84 | the text that goes to `atob` contains no comma |
| `ResultDecoder.DecodePayloadReencodes` | supabase/functions/edit-room-image/index.ts:80-89 | bytes decoded from a payload re-encode to exactly the text after the header, so only canonical base64 is accepted |
| `ResultDecoder.StripHeaderTakesSecondField` | supabase/functions/edit-room-image/index.ts:81-84 | with a comma-free header, only the text between the first and the second comma is decoded, and anything after the second comma is dropped |
| `ResultDecoder.PlainPayload` | supabase/functions/edit-room-image/index.ts:80-81 | a payload without a comma is decoded whole |
| `ResultDecoder.DataUrlRoundTrip` | supabase/functions/edit-room-image/index.ts:80-89 | `data:<decl>,<base64 of b>` decodes to `b` for every comma-free declaration and all bytes |
| `ResultDecoder.PlainRoundTrip` | supabase/functions/edit-room-image/index.ts:80-89 | plain base64 of `b` decodes to `b` |
| `ResultDecoder.TestVectors` | supabase/functions/edit-room-image/index.ts:86-89 | the RFC 4648 test vectors for "fo" and "foo" |
| `Poller.PollFromCharacterized` | supabase/functions/edit-room-image/index.ts:181-211 | polling stops at the first terminal reply, with no query after it: "Ready" gives its sample, "Failed" fails, and a `null` body throws on reading `status`. Non-ok replies and other statuses count as attempts. With no terminal reply among 60, it times out after exactly 60 queries |
| `Poller.PollForResult` | supabase/functions/edit-room-image/index.ts:181-211 | the loop gives the reference result and every status query carries the job id it was given. At most 60 queries; a sample comes from the first terminal reply, which is "Ready"; a timeout means no terminal reply among 60 |
| `Poller.SubmitBodyFields` | supabase/functions/edit-room-image/index.ts:162-167 | the submit body carries the prompt, the input image, seed 42 and the jpeg format |
| `Poller.GenerateCharacterized` | supabase/functions/edit-room-image/index.ts:149-179 | a rejected submit fails with "Failed to initiate image generation: " plus its text, and an accepted submit with a `null` body throws on reading `id`; neither issues a status query. Generation succeeds if and only if the submit is accepted with a non-null body and the first terminal reply among 60 is "Ready", and its sample is the result |
| `Poller.CreateNewImageFromPrompt` | supabase/functions/edit-room-image/index.ts:149-179 | submitting and then polling gives the reference result. Every status query targets the `id` of the submit reply, and a failed submit issues no query |
| `EditPipeline.MaxOrderIsMaximum` | supabase/functions/edit-room-image/index.ts:46-57 | the highest order read is absent if and only if the room has no rows; otherwise it bounds every order of the room and is attained by one of them |
| `EditPipeline.NextOrderIsMaxPlusOne` | supabase/functions/edit-room-image/index.ts:57 | `nextOrder` exceeds every order of the room. It is 0 for a room without edits, and otherwise one more than an existing order |
| `EditPipeline.NextOrderAfterAppend` | supabase/functions/edit-room-image/index.ts:57-66 | after appending a row numbered at least `nextOrder`, the next order is one past it |
| `EditPipeline.AppendKeepsOrdersIncreasing` | supabase/functions/edit-room-image/index.ts:60-66 | appending at `nextOrder` or above keeps each room's orders strictly increasing |
| `EditPipeline.StringField` | supabase/functions/edit-room-image/index.ts:23 | a field is read exactly when the body is an object holding a string under that name, and the value read is that string |
| `EditPipeline.SuccessResponse` | supabase/functions/edit-room-image/index.ts:130-136 | status 200 with truthy `success` and `newImageUrl` equal to the public URL |
| `EditPipeline.InvalidInputChangesNothing` | supabase/functions/edit-room-image/index.ts:19-27 | a missing key, a `null` body (the destructuring `TypeError`) or a falsy field gives its error, with no write and no provider call |
| `EditPipeline.UnauthorizedChangesNothing` | supabase/functions/edit-room-image/index.ts:34-43 | an auth error or a missing user gives "Unauthorized" with no write and no provider call |
| `EditPipeline.SelectErrorChangesNothing` | supabase/functions/edit-room-image/index.ts:46-55 | an error on the order read aborts with that error, with no write and no provider call |
| `EditPipeline.SuccessAppendsPairAndMovesPointer` | supabase/functions/edit-room-image/index.ts:60-136 | success holds if and only if every check and backend call passes and the sample decodes. Then exactly the user turn at `nextOrder` and the assistant turn at `nextOrder + 1` are appended, the blob holds the decoded bytes, the room points at the public URL, and the response returns that URL |
| `EditPipeline.FailureKeepsEarlierWrites` | supabase/functions/edit-room-image/index.ts:68-146 | a failure answers 500 with `error` and leaves the room pointer unchanged. It keeps the turns written before it: a prefix of the user/assistant pair, with no rollback |
| `EditPipeline.AuthorizedWrites` | supabase/functions/edit-room-image/index.ts:60-146 | once the checks pass, a request appends nothing, the user turn, or the user turn and then the assistant turn. A failure answers 500 with `error` and leaves the room pointer unchanged |
| `EditPipeline.FinishWrites` | supabase/functions/edit-room-image/index.ts:78-146 | the steps after generation append at most the assistant turn. A failure there answers 500 with `error` and leaves the room pointer unchanged |
| `EditPipeline.CommitFailure` | supabase/functions/edit-room-image/index.ts:93-128 | the final steps succeed if and only if the upload, the assistant insert and the room update all do. A failure there leaves the room pointer alone and adds at most the assistant turn |
| `EditPipeline.GenerationFailureOrphansUserTurn` | supabase/functions/edit-room-image/index.ts:60-77 | when generation fails, the user turn stays without an assistant partner and no blob is written |
| `EditPipeline.EditKeepsOrdersIncreasing` | supabase/functions/edit-room-image/index.ts:57-118 | every request, whatever its outcome, keeps each room's turns in strictly increasing order |
| `EditPipeline.PairKeepsOrdersIncreasing` | supabase/functions/edit-room-image/index.ts:57-118 | the user turn at `nextOrder`, then the assistant turn at `nextOrder + 1`, keep each room's orders strictly increasing after each append |
| `EditPipeline.RoomStore.InsertEdit` | supabase/functions/edit-room-image/index.ts:60-70 | an insert appends the row unless it fails, and touches nothing else |
| `EditPipeline.RoomStore.Upload` | supabase/functions/edit-room-image/index.ts:93-101 | an upload stores the bytes under the file name unless it fails, and touches nothing else |
| `EditPipeline.RoomStore.UpdateCurrentImage` | supabase/functions/edit-room-image/index.ts:121-128 | the update changes the room's current image only when the room exists, and touches nothing else |
| `EditPipeline.RoomStore.CommitImage` | supabase/functions/edit-room-image/index.ts:91-136 | upload, assistant insert and room update applied in place give the reference final steps |
| `EditPipeline.RoomStore.EditRoomImage` | supabase/functions/edit-room-image/index.ts:18-146 | the handler, applied in place, gives exactly the reference response and new state, and keeps the order invariant |
| `ScrapeListing.FilterPictures` | supabase/functions/scrape-immoscout/index.ts:88 | the filter fails if and only if an entry is null; otherwise it keeps only PICTURE entries and no more than it was given |
| `ScrapeListing.FilterPicturesAppend` | supabase/functions/scrape-immoscout/index.ts:88 | the filter keeps the entries' order: it distributes over concatenation |
| `ScrapeListing.FilterPicturesOne` | supabase/functions/scrape-immoscout/index.ts:88 | a single entry is kept exactly when its `type` or `@type` is "PICTURE" |
| `ScrapeListing.PictureUrl` | supabase/functions/scrape-immoscout/index.ts:105 | the url is the first truthy one of `url`, `uri`, `src`, `imageUrl`, and `imageUrl` as it is when none is truthy; it is truthy if and only if one of the four is |
| `ScrapeListing.PictureTitle` | supabase/functions/scrape-immoscout/index.ts:106 | the title is truthy or null. It is `title` when that is truthy, otherwise `alt` when that is truthy, and null exactly when neither is truthy |
| `ScrapeListing.ExtractPictures` | supabase/functions/scrape-immoscout/index.ts:104-107 | the map fails if and only if an entry is null; otherwise the output is no longer than the input and every url is truthy |
| `ScrapeListing.ExtractPicturesAppend` | supabase/functions/scrape-immoscout/index.ts:104-107 | survivors keep their relative order: extraction distributes over concatenation |
| `ScrapeListing.ExtractPicturesOne` | supabase/functions/scrape-immoscout/index.ts:104-107 | an entry without a truthy url is dropped, and one with a truthy url yields its `{url, title}` |
| `ScrapeListing.ExtractPicturesIdempotent` | supabase/functions/scrape-immoscout/index.ts:104-107 | normalising already normalised pictures changes nothing |
| `ScrapeListing.PictureSourcePriority` | supabase/functions/scrape-immoscout/index.ts:85-93 | an array `media` decides alone and gives its picture entries, even when it is empty. Otherwise a truthy `pictures` (an empty array included) gives its own entries, or throws when it is not an array; `images` is consulted only after both; with none of them there are no pictures |
| `ScrapeListing.ListingTitle` | supabase/functions/scrape-immoscout/index.ts:102 | the title is always truthy: `title`, else `name`, else "Untitled Property" |
| `ScrapeListing.ListingAddress` | supabase/functions/scrape-immoscout/index.ts:103 | the address is the first truthy one of `address.formattedAddress`, `address.description` and `location`, in that order, and null when none is truthy |
| `ScrapeListing.NormalizeWellFormed` | supabase/functions/scrape-immoscout/index.ts:101-108 | every normalised record has a truthy title, a truthy-or-null address, well-formed pictures, and no more pictures than candidates |
| `ScrapeListing.ListingRoundTrip` | src/api2_immo.ts:3-10 | the record read back from its JSON form is the record itself |
| `ScrapeListing.ScrapeSuccess` | supabase/functions/scrape-immoscout/index.ts:112-114 | status 200 with truthy `success` and the record under `data` |
| `ScrapeListing.InvalidInputNoCalls` | supabase/functions/scrape-immoscout/index.ts:16-26 | a `null` body (the destructuring `TypeError`), a falsy url or a missing key gives its error before any call to the scraper service |
| `ScrapeListing.ProviderFailures` | supabase/functions/scrape-immoscout/index.ts:29-69 | a failed run reports its status and text; a missing dataset id fetches nothing; a failed fetch reports its status. The dataset fetched is the one the run named |
| `ScrapeListing.ScrapeSucceedsOnFirstItem` | supabase/functions/scrape-immoscout/index.ts:71-114 | success holds if and only if every step passes and the first item is truthy and normalises; the data is that item's record, and later items never matter |
| `ScrapeListing.NoItemRejected` | supabase/functions/scrape-immoscout/index.ts:74-82 | an empty dataset or a falsy first item gives the "No data returned" error, except a `null` first item: logging `Object.keys` of it throws "Cannot convert undefined or null to object" first |
| `ScrapeListing.ScrapeEnvelope` | supabase/functions/scrape-immoscout/index.ts:112-121 | every response is either the success envelope with a well-formed record, or 500 with `error` and no truthy `success` |
| `Envelope.Unwrap` | src/api2_flux.ts:16-23 | an invocation error throws its message (or the default) whatever the data. Otherwise a data without truthy `success` throws `data.error` (or the default). Otherwise the data is used |
| `Envelope.ErrorCheckedFirst` | src/api2_flux.ts:16-19 | with an invocation error the data is never consulted and the call throws |
| `FluxClient.RequestBodyParsed` | src/api2_flux.ts:8-14 | the body carries exactly the three fields the server reads, and it passes the server's field check if and only if all three are non-empty |
| `FluxClient.NewImageUrl` | src/api2_flux.ts:16-25 | the client returns `data.newImageUrl` exactly when there is no invocation error and `success` is truthy, and throws the envelope's message otherwise |
| `FluxClient.ClientSeesStoredUrl` | src/api2_flux.ts:25 | end to end, the client returns a URL exactly when the edit succeeded. That URL is the assistant turn's image and the room's new current image |
| `ImmoClient.RequestBody` | src/api2_immo.ts:15-19 | the body carries the url under the name the server reads |
| `ImmoClient.RequestBodyAccepted` | src/api2_immo.ts:15-19 | the server rejects the body with "URL is required" exactly when the url is empty |
| `ImmoClient.ScrapeImmoscout` | src/api2_immo.ts:22-31 | the client returns `data.data` unchanged exactly when there is no invocation error and `success` is truthy, and throws the envelope's message otherwise |
| `ImmoClient.ClientSeesListing` | src/api2_immo.ts:31 | end to end, the client returns the server's normalised first item exactly when the scrape succeeded, and it reads back as the same well-formed record |
| `ImmoClient.AddressMayBeNull` | src/api2_immo.ts:5 | an item without address fields gives a `null` address, although the declared shape says string |

## Left out

- HTTP serving, CORS and `OPTIONS` handling are left out, and so are the environment lookups: the keys and the bucket's public URL prefix are parameters.
- The Supabase client, auth, database and storage internals are foreign code. Each call's outcome is a parameter (`Auth`, `Faults`).
- How supabase-js turns an HTTP response into `{data, error}` (for example, a non-2xx status becoming an invocation error) is left out. The client functions take the invocation result as given, and the end-to-end lemmas assume the server's body reaches the client unchanged.
- Time is left out: the 2000 ms wait between status queries is modelled as one attempt, and `Date.now()` in the file name is a parameter. The scraper's `waitForFinish=300` is not modelled.
- Concurrency is left out. Two simultaneous requests can read the same highest `edit_order` before either inserts; the model is sequential and states its properties per request.
- `atob` also accepts whitespace and missing padding. The decoder here accepts only canonical base64, and anything else is a failure with the runtime's "Failed to decode base64".
- Rejected `fetch` calls and JSON parse failures (of the request body included) are not modelled. In the source they leave the polling loop as thrown errors, and each handler's `catch` answers them with status 500 and their message. A "Ready" status body without `result.sample` is not modelled either: a Ready reply always carries its sample text.
- EditPipeline.StringField: only string-valued request fields are modelled. A field that is present but not a string is treated as missing, so a truthy non-string value, which would pass the check at line 25, is rejected with the missing-fields error.
- A `null` JSON body is modelled by the `TypeError` it provokes wherever the source reads it: the request bodies of both functions, the submit and status bodies of the image provider, and the scraper's run body. A dataset body that is not a JSON array is not modelled: the items are a sequence.
- Messages of thrown non-string values (`String(error)` and `new Error(x)` on a non-string `x`) are not converted: the client failure carries the JSON value itself.
- Built-in properties of strings and arrays (`length`, numeric indices) are never read by the modelled code and are not modelled as properties.
- JSON serialisation of responses is taken as the identity on the modelled values. Object key order plays no part.
- Logging (`console.log`, `console.error`) is left out, except where an argument to it throws: `Object.keys` of a `null` first dataset item is modelled by its `TypeError`.
- src/api/api2_flux.ts is not part of this model: it is a superseded draft that nothing calls.
