# Spotify client core, modelled in Dafny

This project models the protocol and coordination core of an ESP32
Spotify remote. The core lives in `components/spotify_client` and
`main/src/selection_list.c`. The model covers:

- **Trim copy.** `memcpy_trimmed` copies one HTTP response chunk into a
  bounded buffer and drops whitespace by fixed neighbour rules.
- **Response consumers.** `json_http_handler_cb` accumulates trimmed JSON;
  `esp_http_client_event_handler` is the raw copier used for album art.
- **Playlist slicer.** `playlists_handler_cb` cuts the `"items"` array of
  a large response into its top-level objects, one at a time, by
  counting braces.
- **WebSocket receiver.** `default_ws_handler_cb` reassembles the frames
  of one message into the shared receive buffer. It hands the buffer
  back and forth with the player task through the `WS_READY_FOR_DATA`
  and `WS_DATA_EVENT` bits.
- **Event bits.** `spotify_dispatch_event` turns UI requests into event
  group bits.
- **Request engine.** The shared retry counter (`http_retries_available`),
  the perform-and-retry loop, `player_cmd` with its command mapping and
  its retry on 403 for the play/pause toggle, `access_token_empty`, the
  status that `spotify_play_context_uri` reports, and the result rules of
  `fetch_album_cover`.
- **Player task.** One iteration of the `player_task` loop: which
  request it serves, in which priority, and what it does.
- **Buffer handshake.** The receiver callback, the player task's
  iterations and the UI's answers, interleaved step by step over the
  event group, with the question of who owns the receive buffer.
- **Track.** `free_track`, `spotify_clear_track` and
  `spotify_clone_track` on the cached track.
- **Selection list.** The cursor set-up and return codes of
  `userInterfaceSelectionList`, and `getMenuEvent`.

Modules, one per file: `Common`, `TrimCopy`, `HttpHandlers`,
`PlaylistSlicer`, `EventBits`, `WsReceiver`, `HttpEngine`, `Coordinator`,
`Handshake`, `Track`, `SelectionList`.

Code that changes state in place becomes a class or a method over
arrays:

- the handlers' static cursors;
- the slicer's static flags;
- the WebSocket `lock`;
- the retry counter and the client's current request;
- the event group;
- the track record.

Each such method is proved against a pure function of the old state. The
lemmas then state the properties of those functions.

Network outcomes are an input sequence (`PerformResult`). When the
outcomes run out, the model reports `Pending`. Other results of calls
that the core makes but that are not part of this model are parameters:

- the token fetch;
- starting the WebSocket session;
- the connection id parser.

## Model

| member | source | states |
|---|---|---|
| `TrimCopy.TrimmedPrefix` | components/spotify_client/handler_callbacks.c:184-211 | the bytes stored after reading a prefix never outnumber the bytes read or the destination size |
| `TrimCopy.MemcpyTrimmed` | components/spotify_client/handler_callbacks.c:184-211 | stores at most `dest_size` bytes, exactly the trimmed chunk, at `dest[start..]`, and leaves every other cell unchanged |
| `TrimCopy.Trimmed` | components/spotify_client/handler_callbacks.c:184-211 | the trimmed copy of a whole chunk is never longer than the chunk or the destination |
| `TrimCopy.Saturated` | components/spotify_client/handler_callbacks.c:204-208 | once the destination is full, stopping early gives the same result as reading the whole chunk |
| `TrimCopy.TrimmedIsSubsequence` | components/spotify_client/handler_callbacks.c:187-210 | the copy is the chunk with bytes deleted: nothing is invented or reordered |
| `TrimCopy.TrimmedKeepsNonSpace` | components/spotify_client/handler_callbacks.c:190-209 | only whitespace is skipped: the copy's non-whitespace bytes are a prefix of the chunk's, and all of them while room remains |
| `TrimCopy.MinifiedCopiedUnchanged` | components/spotify_client/handler_callbacks.c:187-211 | a chunk without whitespace that fits is copied unchanged |
| `TrimCopy.ChunkEdgeWhitespaceDropped` | components/spotify_client/handler_callbacks.c:192-202 | whitespace at the first or last index of a chunk is always dropped, because the missing neighbour reads as NUL |
| `TrimCopy.ColonSpaceRemoved` | components/spotify_client/handler_callbacks.c:196-200 | the space after `":` is removed: `{"a": 1}` becomes `{"a":1}` |
| `TrimCopy.SpaceBeforeNumberKept` | components/spotify_client/handler_callbacks.c:190-203 | a space between `,` and a digit is kept: `[1, 2]` stays as it is |
| `HttpHandlers.CopyAt` | components/spotify_client/handler_callbacks.c:151 | `memcpy` replaces exactly the target range and keeps the rest |
| `HttpHandlers.JsonLenAfterDataAsWritten` | components/spotify_client/handler_callbacks.c:37-40 | as written, the cursor after a data event stays within `buffer_size`, and it may reach it |
| `HttpHandlers.JsonFinishOverrunsAsWritten` | components/spotify_client/handler_callbacks.c:38-43 | one response of `buffer_size` non-whitespace bytes fills the buffer, so the finish NUL is stored at index `buffer_size` |
| `HttpHandlers.JsonHandler.Handle` | components/spotify_client/handler_callbacks.c:28-61 | data appends the trimmed chunk at the cursor and reports the running total. Finish, or a disconnect with a TLS error, stores NUL at the cursor and rewinds it. Other events change nothing. This is the corrected handler of the first Findings row: it offers the trim copy one byte less than line 38 does, so the NUL is always in bounds |
| `HttpHandlers.RawHandler.Handle` | components/spotify_client/handler_callbacks.c:124-181 | data of an unchunked response appends `min(data_len, buffer_size - output_len)` bytes and reports the total. Chunked data and other events change nothing. Finish and every disconnect rewind the cursor |
| `PlaylistSlicer.FindKey` | components/spotify_client/spotify_client.c:891 | the first occurrence of `"items"` at or after the start, or none at all |
| `PlaylistSlicer.Window` | components/spotify_client/spotify_client.c:889-898 | once the key has been seen, the whole chunk is scanned. Before that, only what follows a key in the chunk is scanned, and a chunk without the key is skipped |
| `PlaylistSlicer.Enter` | components/spotify_client/spotify_client.c:916-924 | a `{` deepens the nesting and never moves the cursor forward |
| `PlaylistSlicer.Store` | components/spotify_client/spotify_client.c:925-929 | the guard fails exactly when a byte inside an element finds no room for itself and a NUL. Otherwise the cursor stays inside the buffer |
| `PlaylistSlicer.Leave` | components/spotify_client/spotify_client.c:930-944 | a `}` appends at most one element and never drops one |
| `PlaylistSlicer.Step` | components/spotify_client/spotify_client.c:899-945 | the buffer keeps its size, the cursor stays in it, the list only grows, and a failed guard stops everything |
| `PlaylistSlicer.StepBoundaries` | components/spotify_client/spotify_client.c:916-944 | nothing is stored outside an element. A `{` at depth 0 restarts the stored text at `{`. The `}` that closes an element appends the stored text, stores NUL after it and rewinds the cursor. No room inside an element stops the program |
| `PlaylistSlicer.Run` | components/spotify_client/spotify_client.c:899-945 | the byte loop keeps the buffer size and the cursor bound, and only appends to the list |
| `PlaylistSlicer.FailureStops` | components/spotify_client/spotify_client.c:927 | after the guard fails, nothing changes |
| `PlaylistSlicer.EmitsOnePerElement` | components/spotify_client/spotify_client.c:916-944 | the depth follows the braces alone, and one playlist is emitted per top-level element that closes |
| `PlaylistSlicer.DepthAfterAppend` | components/spotify_client/spotify_client.c:923-932 | the brace depth carried between chunks composes over concatenation |
| `PlaylistSlicer.ClosesAppend` | components/spotify_client/spotify_client.c:930-944 | the number of playlists emitted does not depend on where the response was cut into chunks |
| `PlaylistSlicer.ElementShape` | components/spotify_client/spotify_client.c:916-936 | every emitted element starts with `{` and ends with `}` |
| `PlaylistSlicer.StepKeepsInv` | components/spotify_client/spotify_client.c:899-945 | one byte keeps the invariant: inside an element, the stored text is the open part of that element at the current depth, and every emitted item is one balanced element |
| `PlaylistSlicer.RunKeepsInv` | components/spotify_client/spotify_client.c:899-945 | every playlist the scanner emits is exactly one top-level element |
| `PlaylistSlicer.Slicer.Handle` | components/spotify_client/spotify_client.c:874-957 | a chunk without the key changes nothing. Otherwise the key flag is set and the state is that of the byte loop over the window. Finish and disconnect zero the cursor, the key flag and the depth |
| `PlaylistSlicer.Slicer.Scanner` | components/spotify_client/spotify_client.c:899-945 | the loop leaves the buffer, cursor, depth and list as the scan specification says, or reports the failed guard |
| `PlaylistSlicer.Slicer.EnterByte` | components/spotify_client/spotify_client.c:916-924 | a byte does to the live flags and cursor what `Enter` says of the scan state |
| `PlaylistSlicer.Slicer.StoreByte` | components/spotify_client/spotify_client.c:925-929 | reports a full buffer exactly when the guard of `Store` fails, and otherwise does what `Store` says |
| `PlaylistSlicer.Slicer.LeaveByte` | components/spotify_client/spotify_client.c:930-944 | a byte does to the depth, buffer and list what `Leave` says of the scan state |
| `EventBits.BitFor` | components/spotify_client/spotify_client.c:241-270 | every named event has a bit. The bit is a player-command bit exactly for the five commands, and it is always one the player task waits for |
| `EventBits.BitForInjective` | components/spotify_client/spotify_client.c:241-270 | distinct events set distinct bits |
| `EventBits.EventGroup.SetBits` | components/spotify_client/spotify_client.c:241-270 | setting bits adds exactly those bits and keeps every other |
| `EventBits.EventGroup.TakeBits` | components/spotify_client/spotify_client.c:453-458 | the wait returns every waited bit that is set and clears them all |
| `EventBits.Dispatch` | components/spotify_client/spotify_client.c:234-272 | fails before initialisation and for an unknown event. Otherwise it sets exactly the event's bit and returns `ESP_OK` |
| `WsReceiver.Admit` | components/spotify_client/handler_callbacks.c:93-114 | a frame blocks exactly when no message is in progress and the buffer has not been handed back. Otherwise the lock is held until the last frame, `WS_DATA_EVENT` is raised by the last frame, and the ready bit is consumed only by a message's first frame |
| `WsReceiver.MessageTakesOneReady` | components/spotify_client/handler_callbacks.c:95-113 | a message of any number of frames takes the ready bit exactly once, and finishes unlocked with `WS_DATA_EVENT` set |
| `WsReceiver.HeldFrames` | components/spotify_client/handler_callbacks.c:95-113 | while a message holds the lock, its remaining frames never wait |
| `WsReceiver.MessageWaitsForBuffer` | components/spotify_client/handler_callbacks.c:95-103 | a message that starts while the player task owns the buffer blocks at its first frame |
| `WsReceiver.Write` | components/spotify_client/handler_callbacks.c:106 | a frame copied at its payload offset replaces exactly its own range of the buffer |
| `WsReceiver.Reassembled` | components/spotify_client/handler_callbacks.c:106 | frames written at consecutive payload offsets lay the message out in the buffer and touch nothing else |
| `WsReceiver.OnlyLastCompletes` | components/spotify_client/handler_callbacks.c:107 | among nonempty frames laid end to end, only the last reaches the payload length |
| `WsReceiver.Receiver.Handle` | components/spotify_client/handler_callbacks.c:63-122 | connect, disconnect and close set their bits. Pong, other opcodes and errors change nothing. A text or binary frame blocks, aborts on an oversized message, or copies its bytes at its offset, NUL-terminating and signalling on the last frame |
| `HttpEngine.Attempt` | components/spotify_client/spotify_client.c:830-843 | a request uses at most four outcomes with a fresh counter. A response settles it. Giving up reports the last transport error |
| `HttpEngine.FourOutcomesSuffice` | components/spotify_client/spotify_client.c:605-619 | four outcomes always settle a request started with a fresh counter |
| `HttpEngine.RetriesOnlyTransportErrors` | components/spotify_client/spotify_client.c:830-843 | every outcome before the settling one was a transport failure |
| `HttpEngine.ApiClient.RetriesAvailable` | components/spotify_client/spotify_client.c:605-619 | allows a retry while at most three failures are counted. Otherwise it resets the counter and fails |
| `HttpEngine.ApiClient.Perform` | components/spotify_client/spotify_client.c:830-843 | the retry loop returns what `Attempt` specifies and leaves the counter at 0 once settled |
| `HttpEngine.Resolve` | components/spotify_client/spotify_client.c:783-826 | only an unknown command has no request. Volume resends the last request. Play/pause/toggle use PUT, previous/next use POST, state uses GET |
| `HttpEngine.ToggleAgreesWithDirect` | components/spotify_client/spotify_client.c:793-803 | the toggle sends pause while playing and play otherwise |
| `HttpEngine.Flip` | components/spotify_client/spotify_client.c:852-859 | pause becomes play and play becomes pause, with the method kept |
| `HttpEngine.FlipSwapsToggle` | components/spotify_client/spotify_client.c:848-862 | flipping the toggle's request gives the other playing state's request, and flipping twice restores it |
| `HttpEngine.RunCmd` | components/spotify_client/spotify_client.c:830-866 | a settled request leaves the retry counter at 0. A command other than the toggle ends on its own request. The toggle never reports a 403, because it retries on every 403, even a stale one |
| `HttpEngine.PlayerCmdSpec` | components/spotify_client/spotify_client.c:778-867 | a settled command leaves the counter at 0, ends on its own request unless it is the toggle, and the toggle never reports a 403 |
| `HttpEngine.UnknownCommandFails` | components/spotify_client/spotify_client.c:817-825 | an unknown command returns `ESP_FAIL` with status 0 and sends nothing |
| `HttpEngine.ToggleForbiddenRetriesOther` | components/spotify_client/spotify_client.c:848-862 | a toggle refused with 403 is sent to the other endpoint, and the second answer is reported |
| `HttpEngine.OtherForbiddenReturned` | components/spotify_client/spotify_client.c:844-866 | any other command answered with 403 reports the 403 and stops |
| `HttpEngine.ToggleRetryUnbounded` | components/spotify_client/spotify_client.c:848-862 | while the server keeps answering 403, the toggle never returns |
| `HttpEngine.StaleForbiddenFlipsAgain` | components/spotify_client/spotify_client.c:830-862 | after a 403 and four transport failures, the stale 403 flips the toggle again, back to its first request |
| `HttpEngine.ApiClient.PlayerCmd` | components/spotify_client/spotify_client.c:778-867 | the method returns what the `player_cmd` specification gives and leaves the client set to the request it last sent |
| `HttpEngine.AccessTokenEmpty` | components/spotify_client/spotify_client.c:959-962 | a token buffer that starts with `"Bearer "` counts as empty exactly when it holds nothing else |
| `HttpEngine.TokenEmptyIffNoCredential` | components/spotify_client/spotify_client.c:959-962 | a token buffer holding `"Bearer "` and a credential counts as empty exactly when the credential is empty |
| `HttpEngine.PlayContextUriAsWritten` | components/spotify_client/spotify_client.c:283-330 | as written, the reported status is always 0 |
| `HttpEngine.PlayContextUri` | components/spotify_client/spotify_client.c:283-330 | the corrected request: a failed token fetch is reported with status 0, the request is pending only when its outcomes run out, an answered request reports the server's status, and a nonzero status comes only with `ESP_OK` |
| `HttpEngine.PlayContextStatusReported` | components/spotify_client/spotify_client.c:309-329 | without the shadowing, an answered request reports the server's status, and everything else agrees with the code as written |
| `HttpEngine.PlayContextStatusLostAsWritten` | components/spotify_client/spotify_client.c:313-325 | a 404 answer is reported as status 0 as written, and as 404 once corrected |
| `HttpEngine.AlbumCoverResult` | components/spotify_client/spotify_client.c:682-738 | returns the received byte count exactly when a buffer and a URL exist and the request was answered 200 with a content length that fits. Otherwise it returns `ESP_FAIL` |
| `Coordinator.CommandOf` | components/spotify_client/spotify_client.c:52-61 | a command bit stands for one of the five playback commands |
| `Coordinator.OnlyBit` | components/spotify_client/spotify_client.c:467-468 | picks the set bit of a one-bit command set |
| `Coordinator.CommandActions` | components/spotify_client/spotify_client.c:473-481 | the command is sent first, and the branch only sends it or refreshes the token: it never publishes and never hands the buffer back |
| `Coordinator.EnableStep` | components/spotify_client/spotify_client.c:496-538 | fetches the token first and keeps the enabled flag. It starts a session exactly when the token, the state request and its status (200 or 204) are good, and otherwise leaves the loop. It hands the buffer back exactly when the session started, and never publishes a track from the buffer |
| `Coordinator.DataStep` | components/spotify_client/spotify_client.c:545-566 | clears the first-message flag. It hands the buffer back exactly for a first message whose connection id is confirmed, publishes a track exactly for a later message, and aborts when the id is missing or its confirmation fails |
| `Coordinator.Step` | components/spotify_client/spotify_client.c:451-572 | a command changes no task state and never hands the buffer back. Only an enable request enables and only a disable request disables. The buffer is handed back only on an enable, a disconnect, a message or an answer. A track is published from the buffer only for a message after the first. A stopped loop stays stopped |
| `Coordinator.CommandDropped` | components/spotify_client/spotify_client.c:460-472 | command bits are dropped while disabled or when more than one is set, and the other bits taken with them are lost |
| `Coordinator.CommandAccepted` | components/spotify_client/spotify_client.c:460-484 | a lone command bit of an enabled player is carried out, whatever other bits came with it |
| `Coordinator.CommandReplayedOnce` | components/spotify_client/spotify_client.c:473-481 | a command is sent once, and a second time exactly when the first answer was 401 over a working connection and the token refresh succeeded |
| `Coordinator.EnableWhileEnabledIgnored` | components/spotify_client/spotify_client.c:487-494 | enabling an enabled player does nothing, even when a lost session was reported in the same wake-up |
| `Coordinator.EnablePublishesPlayerState` | components/spotify_client/spotify_client.c:486-533 | enabling fetches the token and the state, publishes the track (200) or "no player" (204), starts the session and arms it |
| `Coordinator.EnableUnexpectedStatusExits` | components/spotify_client/spotify_client.c:518-523 | any other state status leaves the task loop |
| `Coordinator.DisableThenCloseRestartsSession` | components/spotify_client/spotify_client.c:485-543 | disabling closes the session. The disconnect that results then runs the enable branch and starts a new session for a disabled player |
| `Coordinator.BufferHandBack` | components/spotify_client/spotify_client.c:545-571 | the receive buffer is handed back right after the connection-id message, but after a track only when the UI acknowledges it |
| `Coordinator.CommandHidesMessage` | components/spotify_client/spotify_client.c:453-484 | a message that arrives together with a command is neither published nor handed back |
| `Coordinator.PlayerTask.Iterate` | components/spotify_client/spotify_client.c:451-572 | one pass of the loop takes and clears every waited bit, then does exactly what the step specification says and sets the ready bit exactly when that says so |
| `Handshake.EnableOwesAnswer` | components/spotify_client/spotify_client.c:496-533 | with the UI as written, enabling sets the ready bit and also queues a track the UI will answer |
| `Handshake.AnswerReadies` | components/spotify_client/spotify_client.c:567-571 | an answer the task takes while a message is still arriving sets the ready bit again |
| `Handshake.SpuriousAckOverwritesAsWritten` | components/spotify_client/spotify_client.c:496-571 | with the UI as written, a six-step run lets a second message into the buffer while the first is still unread |
| `Handshake.StepHandsOn` | components/spotify_client/spotify_client.c:451-572 | during a session, an iteration gives the buffer to at most one new owner, and only after taking a message or an answer |
| `Handshake.SessionStep` | components/spotify_client/handler_callbacks.c:93-114 | when the UI answers only tracks from the buffer, every step of a session keeps at most one owner, and no frame is admitted over an unread message |
| `Handshake.SessionNeverOverwrites` | components/spotify_client/handler_callbacks.c:95-113 | from any state with at most one owner, no run of frames, iterations, answers and commands overwrites an unread message |
| `Handshake.EnableStartsSession` | components/spotify_client/spotify_client.c:496-533 | enabling leaves at most one owner of the buffer when the enable-time track is not answered, whatever the calls return |
| `Handshake.EnabledSessionNeverOverwrites` | components/spotify_client/spotify_client.c:496-571 | with only tracks from the buffer answered, no run after enabling overwrites an unread message, the run that breaks the UI as written included |
| `Track.ClearReleasesAll` | components/spotify_client/spotify_client.c:626-667 | a cleared track owns no allocation |
| `Track.ClearThenClone` | components/spotify_client/spotify_client.c:417-437 | clear-then-clone copies identifier, strings, artists and playback fields, leaves a cleared device, and owns exactly the copies |
| `Track.CloneWithoutClear` | components/spotify_client/spotify_client.c:417-437 | cloning twice without clearing overwrites three owned strings and lists every artist twice |
| `Track.TrackInfo.Free` | components/spotify_client/spotify_client.c:626-667 | every owned string becomes NULL, the artists are released, the volume becomes "-1", and the identifier and playback fields are kept |
| `Track.TrackInfo.CloneFrom` | components/spotify_client/spotify_client.c:417-437 | copies the identifier, the strings and the playback fields, appends the artists in order, leaves the device alone and returns `ESP_OK` |
| `Track.ClearTrack` | components/spotify_client/spotify_client.c:405-415 | a NULL track is left alone. Any other track becomes the cleared track, whatever it held, and owns no allocation |
| `SelectionList.GetMenuEvent` | main/src/selection_list.c:159-181 | timeout gives `MENU_EVENT_TIMEOUT`, a short press gives select, a medium or long press gives home, clockwise gives next and any other turn gives prev. Other buttons give 0. Up and down never occur |
| `SelectionList.InitCursor` | main/src/selection_list.c:98-117 | `start_pos` becomes 0-based (0 stays 0) and is clamped to the last line (255 for an empty list). The window then shows the cursor and starts at 0 unless the cursor is its last line |
| `SelectionList.Visible` | main/src/selection_list.c:101-108 | without a title every line shows the list; with one, the title lines are subtracted in `uint8_t` arithmetic and wrap below zero |
| `SelectionList.FirstStop` | main/src/selection_list.c:139-154 | the first select, home or timeout message, or none |
| `SelectionList.StopCode` | main/src/selection_list.c:141-152 | the code equals the timeout code exactly on a timeout or a select on line 127, and 0 exactly on home or a select with the cursor at 255 |
| `SelectionList.Moved` | main/src/selection_list.c:145-150 | messages that are neither next, prev, up nor down leave the cursor where it was |
| `SelectionList.ReadMenu` | main/src/selection_list.c:139-154 | the loop returns at the first stopping message, with `current_pos + 1`, 0 or 127, after the moves before it. It ignores every other message |
| `SelectionList.NoMessageIgnored` | main/src/selection_list.c:139-154 | a 0 message leaves the cursor as it was |
| `SelectionList.SelectCodeCollisions` | main/src/selection_list.c:141-152 | selecting line 127 returns the timeout code, and selecting in an empty list returns the home code |
| `SelectionList.UserInterfaceSelectionList` | main/src/selection_list.c:85-156 | the menu returns exactly when some stopping message arrives, with that message's code for the cursor set up and moved as specified |

## Left out

- ESP-IDF HTTP, TLS and WebSocket clients, FreeRTOS tasks, mutexes and
  queues, and logging are foreign libraries. Perform results, the TLS
  error test at disconnect and the WebSocket events are inputs, and the
  mutex is not modelled.
- Concurrency: each callback, each loop iteration and each answer of
  the UI is one atomic step. The `Handshake` module interleaves these
  steps, but not the statements inside them.
- `Handshake.SessionNeverOverwrites`: covers a session from enabling on
  while no disable, disconnect or second enable is raised. A session that
  a disconnect restarts is not covered, because the receiver's `lock` and
  an unread message can survive the restart.
- `Handshake.Next`: the UI as modelled answers every track and never a
  "no player" event. display.c never answers one either; main.c answers
  one only while it waits for its first track (main.c:86-97).
- `WsReceiver.Receiver.Handle`: it requires each frame to lie inside its
  message (`payload_offset + data_len <= payload_len`). The WebSocket
  client guarantees this; the callback does not check it.
- The blocking wait of the WebSocket callback is the outcome `Waiting`.
- `parse_track`, `parse_playlist`, `parse_connection_id`,
  `parse_access_token`, `parse_available_devices`,
  `http_utils_join_string`, `spotify_append_item_to_list` and
  `spotify_free_nodes` are not part of this model.
  - The playlist list holds the sliced object text rather than the parsed
    item.
  - The artist list is a sequence that clearing empties.
- `get_access_token`, `confirm_ws_session`, `esp_websocket_client_start`
  and the connection-id parse are reduced to their result in `Env`.
- `spotify_user_playlists`, `spotify_available_devices` and
  `spotify_client_init`/`deinit` are left out: plumbing around the
  modelled request loop.
- `u8sl_Next`, `u8sl_Prev`, drawing and font metrics belong to u8g2 and
  are not part of this model. The cursor move is a function parameter,
  and the window height in lines (`display_lines`) is an input.
- Network outcomes are a finite sequence. A request that needs more
  outcomes than are given ends as `Pending`, which is how the model
  shows the unbounded 403 loop.
- `PlaylistSlicer.Window`: a `"items"` key split across two chunks is
  never found, as in the code.
- `PlaylistSlicer.Store`: the guard is computed in unbounded integers.
  With a zero-size buffer, the `size_t` subtraction in the source wraps,
  and that case is not modelled.
- `HttpEngine.AlbumCoverResult`: the received size is an input. A
  chunked response (content length -1) answered 200 returns whatever
  `received_size` last held, because the raw copier stores nothing for
  chunked data.
- `HttpEngine.ApiClient.constructor`: the NULL endpoint of a fresh client
  is `Request(Get, [])`.
- `Track.TrackInfo.CloneFrom`:
  - It requires distinct source and destination; cloning a track into
    itself never ends in the source, because the artist list grows while
    it is walked.
  - It requires the three strings to be non-NULL, because they are
    passed to `strdup`.
- The trim copy and the slicer do not know about string literals, as in
  the code. The trim copy keeps whitespace between `,` and a number
  (`[1, 2]`).
- `player_cmd` jumps back to `retry` after every 403 to the toggle
  (spotify_client.c:848-862), so that retry is unbounded.
- `xEventGroupWaitBits` clears every waited bit
  (spotify_client.c:453-458), so one iteration can consume several
  requests.

## Findings

| source | as written | input that shows it | evidently intended | confidence | as-written member | corrected member |
|---|---|---|---|---|---|---|
| components/spotify_client/handler_callbacks.c:38-43 | the trim copy is offered all `buffer_size - output_len` bytes, and finish then stores NUL at `buffer[output_len]` | one chunk of `buffer_size` non-whitespace bytes: `output_len` becomes `buffer_size` and the NUL lands one past the end | keep one byte back for the NUL | not executed | `HttpHandlers.JsonFinishOverrunsAsWritten` | `HttpHandlers.JsonHandler.Handle` |
| components/spotify_client/spotify_client.c:313-325 | the status read after a successful perform goes to an inner `s_code` that shadows the one reported, so the caller always gets 0 | a play request answered 404 is reported as status 0 | report the status read | not executed | `HttpEngine.PlayContextStatusLostAsWritten` | `HttpEngine.PlayContextStatusReported` |
| main/main.c:104-107 | the UI answers every track with `DATA_PROCESSED_EVENT`, including the track the enable branch queued from the player state, and that answer sets `WS_READY_FOR_DATA` | enable; the first frame of the connection-id message takes the ready bit; the UI answers the enable-time track; the task takes the answer and sets the ready bit; the last frame sets `WS_DATA_EVENT`; the next message is admitted before the task has read the first | only an answer to a track parsed from the receive buffer hands that buffer back (spotify_client.c:567-570) | not executed; needs the UI's answer to fall inside a message of two or more frames | `Handshake.SpuriousAckOverwritesAsWritten` | `Handshake.EnabledSessionNeverOverwrites` |
