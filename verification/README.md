# midjourney-swift: wire protocol, scrape extraction and URL templates

A Dafny model of the pure pieces of the `midjourney-swift` client library,
the parts that sit inside its network-bound code:

- **The WebSocket wire protocol** (`SocketMessage`). This is the closed union
  `WebSocketMessage` with eight variants. A string `type` field selects the
  variant, and the other fields use a fixed key mapping (`user_id`,
  `room_id` and `job_id` are snake case on the wire). There is a
  hand-written encoder, a hand-written decoder, and the synthesised codecs
  of the nested `User`, `Job`, `JobProgressData` and `Img` records. JSON is
  an abstract value (`Json.JValue`). A decoding failure reports the
  `DecodingError` case that Foundation's `JSONDecoder` raises, with the
  missing key and the coding path. Encoding followed by decoding gives back
  the original message. Keys the client does not read are ignored, as
  Foundation ignores them.
- **The WebSocket session** (`SocketSession`). `onSocketMessage` turns
  `room_new_job` into a `jobCreated` delegate event and `job_progress` into
  a `jobUpdate` event; every other variant is ignored. The connection
  lifecycle is a small state machine: the task (none, open, cancelled),
  the ping timer (present or absent), and whether the receive loop is
  armed. Connect, disconnect, keep-alive ticks, `subscribeToJob` and
  receive completions are its steps. Frames on the wire and delegate
  callbacks are recorded in order.
- **Sentinel extraction** (`Strings.StringBetween`). This models
  `String.stringBetween(start:end:)`. It finds the first `start`, then the
  first `end` at or after the end of that match, and returns the text
  between them, or nil.
- **Authentication** (`Auth`). It holds the fixed request headers and the
  classification inside `myUserId`. A failed request is passed through. A
  page without the `__NEXT_DATA__` payload gives `AuthError.unknown`. A
  payload that does not decode gives the decoder's error. Otherwise the
  result is `props.initialAuthUser.midjourney_id`.
- **Like URLs** (`Likes`). `likeJobUrl` places the job id between a fixed
  prefix and `/like`. `JobIdOfLikeUrl` is a model-side inverse, used to
  state that the template is injective. The `likedJobsUrl` constant is
  `Likes.LikedJobsUrl`.

Swift's `Int` is 64-bit, so integer fields of the protocol have type
`Json.Int64`. Decoding a JSON number outside that range fails with
corrupted data, as `JSONDecoder` does.

Foundation's `range(of:)` never reports an empty search string as found.
`Strings.OccursAt` follows it, so an empty `start` or `end` makes
`stringBetween` return nil.

The two header lists are Swift dictionary literals. Swift does not fix the
iteration order of a dictionary, so both lists are modelled as maps.

The repository defines `stringBetween` twice, with identical bodies, in
`Midjourney.swift:81-88` and `Midjourney+Auth.swift:76-83`. It is modelled
once. `AuthResponse` also appears twice. `myUserId` decodes the file-private
copy in `Midjourney.swift`, which reads only `midjourney_id`, and that is
the copy modelled here.

## Model

| member | source | states |
|---|---|---|
| `SocketMessage.RawValue` | Sources/Midjourney/Midjourney+WebSocket.swift:181-190 | every message type's tag is one of the eight wire tags |
| `SocketMessage.FromRawValue` | Sources/Midjourney/Midjourney+WebSocket.swift:181-190 | `MessageType(rawValue:)` is defined on exactly the eight tags and is the inverse of `RawValue` there |
| `SocketMessage.RawValueInjective` | Sources/Midjourney/Midjourney+WebSocket.swift:181-190 | two message types share a tag if and only if they are the same type |
| `SocketMessage.FieldKeys` | Sources/Midjourney/Midjourney+WebSocket.swift:192-201 | the fields of each variant are drawn from the coding keys other than `type` |
| `SocketMessage.Encode` | Sources/Midjourney/Midjourney+WebSocket.swift:269-301 | the encoding is an object holding the variant's tag under `type` plus exactly that variant's keys; `ping` writes only `type` |
| `SocketMessage.EncodeJob` | Sources/Midjourney/Midjourney+WebSocket.swift:209-216 | an encoded job holds exactly the six job properties |
| `SocketMessage.EncodeProgress` | Sources/Midjourney/Midjourney+WebSocket.swift:218-231 | `imgs` is written if and only if it is present (`encodeIfPresent`), alongside the status and the percentage |
| `SocketMessage.DecodeUser` | Sources/Midjourney/Midjourney+WebSocket.swift:203-207 | a user decodes exactly when `user_id` and `username` are strings and `isTyping` is a boolean, and each property comes from its own key |
| `SocketMessage.DecodeJob` | Sources/Midjourney/Midjourney+WebSocket.swift:209-216 | a job decodes exactly when its six properties are present with the right kinds, the integers fitting in 64 bits, and each property comes from its own key |
| `SocketMessage.DecodeImg` | Sources/Midjourney/Midjourney+WebSocket.swift:224-226 | an image decodes exactly when `data` is a string, and carries that string |
| `SocketMessage.DecodeUserList` | Sources/Midjourney/Midjourney+WebSocket.swift:203-207 | a user array decodes exactly when every element does; element `i` comes from array element `i`, decoded at index `i` of the coding path; on failure, the first failing element's error is reported |
| `SocketMessage.DecodeImgList` | Sources/Midjourney/Midjourney+WebSocket.swift:224-230 | an image array decodes exactly when every element does; element `i` comes from array element `i`; on failure, the first failing element's error is reported |
| `SocketMessage.DecodeProgress` | Sources/Midjourney/Midjourney+WebSocket.swift:218-231 | progress data decodes exactly when the status is one of the three raw values, the percentage fits in 64 bits, and `imgs` is absent, `null` or an array whose every element decodes, whatever other keys are present; the status and the percentage come from their keys; `imgs` is nil exactly when the key is absent or `null` (`decodeIfPresent`), and otherwise holds one image per array element; an unknown status is corrupted data at `current_status` |
| `SocketMessage.DecodeType` | Sources/Midjourney/Midjourney+WebSocket.swift:235 | a missing `type` is a missing key, a non-string `type` is a type mismatch (or a missing value when `null`) at `type`, and a string `type` decodes exactly when it is one of the eight tags, to the type whose tag it is |
| `SocketMessage.DecodeFields` | Sources/Midjourney/Midjourney+WebSocket.swift:237-266 | each arm yields a message of its own type, succeeds only when all of that type's keys are present, and takes every payload component from its own key; conversely each arm succeeds whenever its keys hold values of the right kind that decode (users, job, progress data) |
| `SocketMessage.Decode` | Sources/Midjourney/Midjourney+WebSocket.swift:233-267 | decoding succeeds only on an object whose `type` is a known tag and which holds every field of that variant; a non-object, a missing or non-string `type` and an unknown tag each fail with the matching `DecodingError`; an object with a known tag decodes exactly as that tag's arm decodes it, so everything the arms accept reaches the caller |
| `SocketMessage.UserListRoundTrip` | Sources/Midjourney/Midjourney+WebSocket.swift:203-207 | decoding an encoded user list gives the same list, in the same order |
| `SocketMessage.ImgListRoundTrip` | Sources/Midjourney/Midjourney+WebSocket.swift:224-230 | decoding an encoded image list gives the same list, in the same order |
| `SocketMessage.ProgressRoundTrip` | Sources/Midjourney/Midjourney+WebSocket.swift:218-231 | progress data round-trips, including an absent `imgs` |
| `SocketMessage.NullImgsReadAsAbsent` | Sources/Midjourney/Midjourney+WebSocket.swift:230 | progress data with `imgs: null` decodes exactly as when the key is absent |
| `SocketMessage.FieldsRoundTrip` | Sources/Midjourney/Midjourney+WebSocket.swift:237-299 | each variant's decoder arm reads back exactly what its encoder arm wrote |
| `SocketMessage.RoundTrip` | Sources/Midjourney/Midjourney+WebSocket.swift:233-301 | decoding the encoding of any message gives that message |
| `SocketMessage.DecodeFieldsReadsOnlyItsKeys` | Sources/Midjourney/Midjourney+WebSocket.swift:237-266 | two objects that agree on a variant's keys decode alike under that variant's arm |
| `SocketMessage.DecodeReadsOnlyCodingKeys` | Sources/Midjourney/Midjourney+WebSocket.swift:233-267 | two objects that agree on `type` and the other coding keys decode alike, whatever else they hold |
| `SocketMessage.DecodeIgnoresUnknownKeys` | Sources/Midjourney/Midjourney+WebSocket.swift:233-267 | an encoded message with extra keys outside the coding keys still decodes to that message |
| `SocketMessage.DecodeJobIgnoresUnknownKeys` | Sources/Midjourney/Midjourney+WebSocket.swift:209-216 | a job object with properties beyond the six still decodes to the same job |
| `SocketMessage.DecodeProgressIgnoresUnknownKeys` | Sources/Midjourney/Midjourney+WebSocket.swift:218-231 | progress data with properties beyond status, percentage and `imgs` decodes to the same record |
| `SocketMessage.NewJobIgnoresUnknownKeys` | Sources/Midjourney/Midjourney+WebSocket.swift:250-253 | a `room_new_job` whose envelope and whose job both carry unknown keys decodes to the announced job |
| `SocketSession.OnSocketMessage` | Sources/Midjourney/Midjourney+WebSocket.swift:127-144 | `room_new_job` gives exactly one `jobCreated` event with the job's id, enqueue time, width and height; `job_progress` gives exactly one `jobUpdate` with the message's job id and percentage, and `imgs` absent if and only if the message's is absent, otherwise the same images in the same order; every other variant gives no event |
| `SocketSession.Transmit` | Sources/Midjourney/Midjourney+WebSocket.swift:76-90 | only an open task puts the frame on the wire; with no task the completion handler is never called, and a cancelled task reports failure; nothing but the sent frames changes |
| `SocketSession.Connect` | Sources/Midjourney/Midjourney+WebSocket.swift:49-65 | connecting opens the task, arms the receive loop and starts the ping timer; it also sends one frame, which decodes to `subscribe_to_user` with the session's token |
| `SocketSession.Disconnect` | Sources/Midjourney/Midjourney+WebSocket.swift:68-72 | afterwards the ping timer is absent, the receive loop is stopped and no task is open; nothing is sent or delivered |
| `SocketSession.DisconnectIdempotent` | Sources/Midjourney/Midjourney+WebSocket.swift:68-72 | disconnecting twice is the same as disconnecting once |
| `SocketSession.DisconnectNeverConnected` | Sources/Midjourney/Midjourney+WebSocket.swift:68-72 | disconnecting a session that never connected changes nothing |
| `SocketSession.PingTimerFires` | Sources/Midjourney/Midjourney+WebSocket.swift:147-156 | a timer tick sends one `ping` frame when the timer exists and the task is open, and nothing otherwise; nothing but the sent frames changes |
| `SocketSession.NoPingAfterDisconnect` | Sources/Midjourney/Midjourney+WebSocket.swift:62-72 | after a disconnect, timer ticks send nothing |
| `SocketSession.SubscribeToJobInRoom` | Sources/Midjourney/Midjourney+WebSocket.swift:76-90 | on an open task, one frame is sent and it decodes to `subscribe_to_job` with room `"singleplayer_" + userId`; with no task the completion handler is never called and nothing changes; on a cancelled task the completion reports failure; nothing but the sent frames changes |
| `SocketSession.Receive` | Sources/Midjourney/Midjourney+WebSocket.swift:103-125 | the loop stays armed if and only if it was armed and the receive did not fail; a frame that does not decode changes nothing; a decoded frame delivers exactly its dispatch events when a delegate is set |
| `SocketSession.FramingIrrelevant` | Sources/Midjourney/Midjourney+WebSocket.swift:109-117 | text and binary frames carrying the same JSON are handled alike |
| `SocketSession.ReceiveLoopRuns` | Sources/Midjourney/Midjourney+WebSocket.swift:103-125 | over any sequence of completions, the loop is still armed at the end if and only if none of them was a receive failure; once the loop has stopped, the model takes no further receive step |
| `SocketSession.NewJobThenProgress` | Sources/Midjourney/Midjourney+WebSocket.swift:103-144 | a `room_new_job` frame followed by a `job_progress` frame for the same job notifies the delegate exactly twice, in that order, with exactly the events dispatch makes of the two messages (so every mapped field, `imgs` included), and sends nothing |
| `SocketSession.SetDelegate` | Sources/Midjourney/Midjourney+WebSocket.swift:34 | the delegate can be set or cleared at any time, and nothing else changes |
| `SocketSession.FramesWithoutDelegateAreLost` | Sources/Midjourney/Midjourney+WebSocket.swift:127-144 | while no delegate is set, a received frame changes nothing: the loop stays armed and its event is not kept for a later delegate |
| `Strings.FindFrom` | Sources/Midjourney/Midjourney+Auth.swift:77-78 | the search returns the first occurrence of a non-empty pattern at or after the start position, or nil when there is none |
| `Strings.StringBetween` | Sources/Midjourney/Midjourney+Auth.swift:76-83 | nil exactly when no `end` occurs at or after the end of some `start`; on success the result lies between the first `start` and the first `end` after it, never contains `end`, and is at most `|s| - |start| - |end|` long |
| `Strings.StringBetweenDecomposes` | Sources/Midjourney/Midjourney.swift:81-88 | on success the input is `s[..i] + start + result + end + rest`, where `i` is the first occurrence of `start` |
| `Auth.RequestHeaders` | Sources/Midjourney/Midjourney+Auth.swift:54-72 | the headers are exactly the twelve names sent on every REST call, and `cookie` holds the stored cookie |
| `Auth.RequestHeaderCount` | Sources/Midjourney/Midjourney+Auth.swift:55-68 | there are twelve headers |
| `Auth.HeadersIndependentOfCookie` | Sources/Midjourney/Midjourney+Auth.swift:55-68 | every header other than `cookie` has the same value whatever the cookie |
| `Auth.ExploreHeaders` | Sources/Midjourney/Midjourney.swift:34-51 | the page request adds `sec-ch-ua` and `Referer` to the shared header set and agrees with it on every shared name |
| `Auth.DecodeAuthUser` | Sources/Midjourney/Midjourney.swift:22-24 | the user decodes exactly when `midjourney_id` is a string, and yields that string |
| `Auth.DecodeAuthProperties` | Sources/Midjourney/Midjourney.swift:21-26 | the properties decode exactly when `initialAuthUser` is present and decodes, and carry that user |
| `Auth.DecodeAuthResponse` | Sources/Midjourney/Midjourney.swift:20-28 | the payload decodes exactly when it holds a string at `props.initialAuthUser.midjourney_id`, and yields that string |
| `Auth.MyUserId` | Sources/Midjourney/Midjourney.swift:59-76 | a failed request is passed through unchanged; the result is `AuthError.unknown` exactly when the page has no payload between the `__NEXT_DATA__` sentinels (in particular when the opening sentinel is absent); decode errors arise only once a payload was found, and once a payload is found every failure is a decode error (corrupted data when the payload is not JSON); success happens exactly when the payload parses and carries a user id, and returns that id |
| `Auth.DecodeErrorSurfaces` | Sources/Midjourney/Midjourney.swift:63-69 | a payload that is found and parses as JSON but does not decode reports the decoder's own error, not `AuthError.unknown` |
| `Auth.UnparsablePayloadIsCorrupted` | Sources/Midjourney/Midjourney.swift:63-68 | a payload that is found but is not JSON is reported as the decoder's corrupted-data error |
| `Likes.LikeJobUrl` | Sources/Midjourney/Midjourney+Likes.swift:14-16 | the URL starts with `https://www.midjourney.com/api/jobs/`, ends with `/like`, and holds exactly the job id in between, so its length is that of prefix, id and suffix together |
| `Likes.JobIdOfLikeUrl` | Sources/Midjourney/Midjourney+Likes.swift:14-16 | any id read back from a URL rebuilds that URL |
| `Likes.LikeUrlRoundTrip` | Sources/Midjourney/Midjourney+Likes.swift:14-16 | every like URL is recognised and gives back the id it was built from |
| `Likes.LikeJobUrlInjective` | Sources/Midjourney/Midjourney+Likes.swift:14-16 | two ids give the same like URL if and only if they are equal |

## Left out

- Networking is not modelled: URLSession, Alamofire requests and `validate()`, Combine, and the `async` continuation wrappers such as `subscribeToJobAsync`. An HTTP outcome is a parameter of `Auth.MyUserId`. Sends and receives are steps of the session state machine.
- Time is not modelled. The 25-second keep-alive period is not represented; a timer tick is a step the environment may take while the timer exists.
- Foundation's JSON text parser, number formatting and UTF-8 conversion are not modelled. A frame carries an already-parsed `JValue` or nothing. The page payload is handed to a `parse` parameter.
- `Json.DecodeError` keeps the `DecodingError` case, the missing key and the coding path. It does not keep the expected type that `typeMismatch` and `valueNotFound` carry, the context's debug description, or the underlying error.
- Floating-point JSON numbers are not modelled. Every number in these messages is decoded as an `Int`.
- Foundation's Unicode-aware string comparison is not modelled. `range(of:)` compares by canonical equivalence over grapheme clusters; the model compares characters exactly.
- Connecting twice is only partly modelled. A second `connect` replaces the task and timer without cancelling the earlier ones, so the earlier timer keeps firing after `disconnect`. The session keeps one flag per resource and tracks only the newest task and timer.
- Transport-level send failures on an open task are not modelled. Such a send is recorded as sent and its completion as a success.
- Disconnect is one step. The cancelled task's outstanding receive fails and ends the loop; the model folds that into `Disconnect`.
- The receive loop's `[weak self]` capture is not modelled: the session is never deallocated.
- The `AuthResponse` of `Midjourney+Auth.swift` is not modelled (it adds `displayName`, `websocketAccessToken` and `abilities`). No function in these files decodes it.
- `errorIsUnauthorized` is not modelled. It reads `responseCode` from Alamofire's `AFError`, a library type.
- `Midjourney+Alpha.swift` is not modelled. Its header list duplicates `requestHeaders`.
- The plain records in `Midjourney+Jobs.swift` and `Midjourney+Job.swift` are not modelled, and neither are `Package.swift` or the job-listing URL constants.
