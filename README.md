# TikTok chat router: client-side logic in Dafny

This project models the client-side logic of the TikTok chat router, an
Electron/React desktop viewer. The viewer shows live TikTok chats and gifts.
The repository also holds a socket.io client for a room-based relay server and
a room-list fetch, but nothing in it calls them yet. The model covers four
pieces, one Dafny module each:

- **TikTokLive** (`src/hooks/useTikTokLive.ts`). Chat and gift records are
  built from the bridge's events. The histories are bounded: each new item
  keeps the last 99 chats or the last 19 gifts, then appends. `connect` and
  `disconnect` change `isConnected`, `roomId` and `error`. The hook's state is
  the class `LiveSession`, and each listener or callback is a method on it.
- **ChatViewer** (`src/components/ChatViewer.tsx`). Chats and gifts are tagged
  and merged into one timeline, sorted stably by timestamp. The module also
  holds the display-name rule, the avatar fallback and the diamond-count suffix.
  All of it is pure functions.
- **SocketConnection** (`src/hooks/useSocketConnection.ts`). This is the
  forwarding client, the class `SocketClient`. It holds the hook's props, its
  `status` and the socket reference, plus a ghost log of what it did on the
  network: sockets opened, sockets closed, frames emitted. The lifecycle
  effect, its cleanup, the room effect, the socket's event handlers and
  `sendToSocket` are methods. One invariant
  is kept across all methods: a closed socket emits nothing more, and every
  emitted frame names a non-empty room.
- **Rooms** (`src/hooks/useRooms.ts`). The room-list fetch is split at its
  `await`. `StartFetch` checks the configuration and returns the request.
  `FinishFetch` takes the settled response as an input. Between them sits the
  pure `Classify`, the reading of a response into rooms or an error message.

Three helper modules support these. `Wrappers` holds Option and Result.
`JsBuiltins` holds `slice` with a negative start, `substr`, and number-to-text
with a parse-back. `Json` is the JavaScript value of a payload or a response
body, with JavaScript truthiness and the `?.` property read.

The hooks run as sequential event handlers. The caller does what React and
socket.io would do: it calls `SetProps` for a render, then the effects whose
dependencies changed, and then the socket handlers as events come in.

Some behaviour of the code is kept on purpose, because the code does it:

- The `connect` handler joins the room id captured when the lifecycle effect
  ran. Its dependencies leave `roomId` out, so that id goes stale. The model
  keeps it as `Socket.joinRoomId`. After a reconnect, the old room is joined
  again, and the room effect joins the current one as well.
- Under React, the effect's cleanup sets the socket reference to null before
  the effect runs again. So the branch "disabled while a socket exists" is only
  reached if the effect runs without its cleanup. The model keeps that branch
  as written and does not require the cleanup.
- socket.io's `disconnect()` raises the `disconnect` event synchronously when
  the socket was connected. So the cleanup also resets `status` in that case.
- A gift's comment is replaced by `Sent <giftName>`. Equal timestamps keep
  concatenation order, so chats come before gifts. The sort is stable, as
  ECMAScript 2019 requires of `Array.prototype.sort`.

## Model

| member | source | states |
|---|---|---|
| `JsBuiltins.SliceFrom` | src/hooks/useTikTokLive.ts:75 | `slice(start)` yields a suffix of the array; a negative start keeps `min(-start, n)` elements |
| `JsBuiltins.Substr` | src/hooks/useSocketConnection.ts:45 | `substr(start, length)` yields at most `length` characters, taken from `start` on when `start` is in range, and nothing past the end |
| `JsBuiltins.NumberRoundTrip` | src/components/ChatViewer.tsx:82 | the decimal text of a number reads back as that number |
| `TikTokLive.ToMessage` | src/hooks/useTikTokLive.ts:63-71 | the chat record maps `msgId` to `id`, copies the other bridge fields unchanged (the bridge data reads back exactly) and stamps the clock reading |
| `TikTokLive.ToGift` | src/hooks/useTikTokLive.ts:87-97 | the gift record maps `msgId` to `id`, copies the other bridge fields unchanged and stamps the clock reading |
| `TikTokLive.AppendBounded` | src/hooks/useTikTokLive.ts:75 | `[...prev.slice(-keep), item]` is the last `keep + 1` items of `prev + [item]`; its length is `min(n, keep) + 1`; the new item is last |
| `TikTokLive.AppendChat` | src/hooks/useTikTokLive.ts:73-76 | chat history length is `min(n, 99) + 1`, at most 100; the new message is last; before it come the last `min(n, 99)` old messages in order; under 99 old messages it is plain concatenation |
| `TikTokLive.AppendGift` | src/hooks/useTikTokLive.ts:86-99 | the same for gifts with 19 kept, so at most 20 |
| `TikTokLive.AppendAllIsWindow` | src/hooks/useTikTokLive.ts:73-76 | after any non-empty run of bounded appends the history is exactly the last `keep + 1` items of everything seen |
| `TikTokLive.ChatHistoryIsLatest` | src/hooks/useTikTokLive.ts:73-76 | however many chats arrive, the history holds the latest 100 chats, in arrival order |
| `TikTokLive.GiftHistoryIsLatest` | src/hooks/useTikTokLive.ts:86-99 | however many gifts arrive, the history holds the latest 20 gifts, in arrival order |
| `TikTokLive.OrElse` | src/hooks/useTikTokLive.ts:44-46 | `value \|\| fallback` on an optional string: a missing or empty value gives the fallback |
| `TikTokLive.LiveSession.constructor` | src/hooks/useTikTokLive.ts:26-30 | initial state: not connected, no room, empty histories, no error |
| `TikTokLive.LiveSession.Connect` | src/hooks/useTikTokLive.ts:38-53 | success clears `error`, sets `isConnected` and `roomId` to `result.roomId` or null when absent or empty; failure sets `error` to `result.error` or `Failed to connect`; a rejection sets the exception's message; both failure paths leave `isConnected` false and `roomId` unchanged; histories unchanged |
| `TikTokLive.LiveSession.Disconnect` | src/hooks/useTikTokLive.ts:55-59 | `isConnected` false, `roomId` null; messages, gifts and error unchanged |
| `TikTokLive.LiveSession.OnChat` | src/hooks/useTikTokLive.ts:62-82 | one bounded chat append of the mapped record, which is also handed to the callback; nothing else changes; histories stay within bounds |
| `TikTokLive.LiveSession.OnGift` | src/hooks/useTikTokLive.ts:84-100 | one bounded gift append of the mapped record; nothing else changes |
| `ChatViewer.TagChat` | src/components/ChatViewer.tsx:14 | a chat becomes a `chat` event with no gift fields; the message record reads back from it exactly, so every field is copied |
| `ChatViewer.TagGift` | src/components/ChatViewer.tsx:14 | a gift becomes a `gift` event whose comment is `Sent ` + giftName; the gift record reads back from it exactly, so every field is copied |
| `ChatViewer.TagChats` | src/components/ChatViewer.tsx:14 | `messages.map(...)`: element-wise tagging, same length |
| `ChatViewer.TagGifts` | src/components/ChatViewer.tsx:14 | `gifts.map(...)`: element-wise tagging, same length |
| `ChatViewer.Tagged` | src/components/ChatViewer.tsx:14 | the spread concatenation: length is the sum; entry `i` is the tagged `messages[i]` and entry `messages.length + j` the tagged `gifts[j]`; exactly the first `messages.length` entries are chats; each gift entry's comment is `Sent ` + its giftName |
| `ChatViewer.Insert` | src/components/ChatViewer.tsx:15 | inserting into a sorted timeline keeps it sorted and adds exactly one element |
| `ChatViewer.InsertAtTime` | src/components/ChatViewer.tsx:15 | an inserted event goes before the events with its timestamp, and the order of those events is kept |
| `ChatViewer.SortByTimestamp` | src/components/ChatViewer.tsx:15 | the result is sorted by timestamp and is a permutation of the input |
| `ChatViewer.SortKeepsOrderAtTime` | src/components/ChatViewer.tsx:15 | stability: for every timestamp, the events carrying it appear in input order |
| `ChatViewer.AllEvents` | src/components/ChatViewer.tsx:14-15 | the timeline's length is `messages.length + gifts.length`; it is sorted by timestamp and a permutation of the tagged chats and gifts |
| `ChatViewer.AllEventsStable` | src/components/ChatViewer.tsx:14-15 | among equal timestamps, the chats come first in input order, then the gifts in input order |
| `ChatViewer.AtTimeElements` | src/components/ChatViewer.tsx:15 | the events picked for a timestamp are events of the sequence with that timestamp |
| `ChatViewer.AtTimeOfHead` | src/components/ChatViewer.tsx:15 | a non-empty sequence has at least one event at its first event's timestamp |
| `ChatViewer.SortedStableUnique` | src/components/ChatViewer.tsx:15 | sorted plus stable fixes the order: two such sequences with equal per-timestamp order are equal |
| `ChatViewer.AllEventsIsTheStableSort` | src/components/ChatViewer.tsx:14-15 | any sorted sequence that keeps each timestamp's events in tagged-input order is the timeline itself |
| `ChatViewer.AllEventsContains` | src/components/ChatViewer.tsx:14-15 | every input chat and every input gift appears on the timeline, tagged |
| `ChatViewer.DisplayName` | src/components/ChatViewer.tsx:64 | `uniqueId` when the nickname has fewer than 2 characters, otherwise the nickname |
| `ChatViewer.AvatarInitial` | src/components/ChatViewer.tsx:52 | first character of a non-empty nickname, else of a non-empty uniqueId, else `?` |
| `ChatViewer.AvatarOf` | src/components/ChatViewer.tsx:44-54 | the picture exactly when the URL is non-empty, otherwise the initial |
| `ChatViewer.DiamondSuffix` | src/components/ChatViewer.tsx:82 | a suffix exists exactly for gift events; it is `x` followed by the canonical decimal text of the diamond count, which reads back as that count |
| `SocketConnection.HandshakeAuth` | src/hooks/useSocketConnection.ts:45-48 | the auth carries the API key and a user id that starts with `tiktok-viewer-` and ends with the characters of the random text from position 2 up to position 11 (fewer if the text is shorter; none if it is shorter than 2) |
| `SocketConnection.JoinFrame` | src/hooks/useSocketConnection.ts:63 | a `room:join` frame whose data is exactly `{roomId}` |
| `SocketConnection.Envelope` | src/hooks/useSocketConnection.ts:126-130 | the envelope has exactly the keys `roomId`, `event`, `payload`, which read back as the room, the event name and the unmodified payload |
| `SocketConnection.EmitFrame` | src/hooks/useSocketConnection.ts:134 | a `room:emit` frame carrying the envelope |
| `SocketConnection.EnvelopeInjective` | src/hooks/useSocketConnection.ts:126-134 | equal frames come from equal room, event name and payload |
| `SocketConnection.JoinFailure` | src/hooks/useSocketConnection.ts:64-66 | a join acknowledgement sets an error exactly when its `error` is truthy, and the error is `Joined failed: ` + that error's text |
| `SocketConnection.EmitAckFailed` | src/hooks/useSocketConnection.ts:135 | a falsy or missing acknowledgement is never a failure; a truthy acknowledgement that is not an object always is |
| `SocketConnection.EmitAckFailedByShape` | src/hooks/useSocketConnection.ts:135 | for every acknowledgement: an object fails exactly when its `error` is truthy or its `ok` is falsy; any other truthy value fails; a falsy or missing one does not |
| `SocketConnection.EmitAckAgainstRelay` | src/hooks/useSocketConnection.ts:135 | a missing acknowledgement and `{ok: true}` are not failures; the relay's `{ok: false, error}` is |
| `SocketConnection.SocketClient.constructor` | src/hooks/useSocketConnection.ts:17-18 | initial status `{false, null}`, no socket, nothing sent |
| `SocketConnection.SocketClient.SetProps` | src/hooks/useSocketConnection.ts:16 | a render replaces the props and changes nothing else |
| `SocketConnection.SocketClient.LifecycleEffect` | src/hooks/useSocketConnection.ts:21-95 | disabled or missing URL or key: an existing socket is closed, the reference becomes null and status becomes `{false, null}`; with no socket nothing changes. Otherwise: a new socket is opened with the handshake auth, 5 attempts and a 10000 ms timeout, and the status is left alone; if `io` throws, the status is `{false, message}` |
| `SocketConnection.SocketClient.LifecycleCleanup` | src/hooks/useSocketConnection.ts:85-89 | the effect's socket is closed and the reference becomes null; status resets only if that socket was connected |
| `SocketConnection.SocketClient.RoomEffect` | src/hooks/useSocketConnection.ts:99-115 | while connected with a non-empty room: exactly one `room:join` for the current room, no leave; otherwise nothing is sent |
| `SocketConnection.SocketClient.OnConnect` | src/hooks/useSocketConnection.ts:56-72 | status `{true, null}`; exactly one `room:join` for the captured room if it is non-empty, else none |
| `SocketConnection.SocketClient.OnJoinAck` | src/hooks/useSocketConnection.ts:63-69 | a failed join sets `status.error` to `Joined failed: ...`; `isConnected` is unchanged either way |
| `SocketConnection.SocketClient.OnConnectError` | src/hooks/useSocketConnection.ts:74-77 | status `{false, err.message}`; nothing sent |
| `SocketConnection.SocketClient.OnDisconnect` | src/hooks/useSocketConnection.ts:79-82 | status `{false, null}`; nothing sent |
| `SocketConnection.SocketClient.SendToSocket` | src/hooks/useSocketConnection.ts:119-139 | nothing is sent unless the socket is connected and `roomId` is non-empty; otherwise exactly one `room:emit` envelope `{roomId, event, payload}` with the payload unmodified |
| `Rooms.StripTrailingSlash` | src/hooks/useRooms.ts:26 | one trailing `/` is removed if present, otherwise the URL is unchanged |
| `Rooms.StripRemovesOnlyOne` | src/hooks/useRooms.ts:26 | `a//` becomes `a/` |
| `Rooms.StripUndoesSlash` | src/hooks/useRooms.ts:26 | stripping a URL with one slash appended gives the URL back |
| `Rooms.RoomsEndpoint` | src/hooks/useRooms.ts:26-27 | the target ends in `/v1/rooms`; what comes before it, plus any stripped slash, is the configured URL |
| `Rooms.EndpointIgnoresTrailingSlash` | src/hooks/useRooms.ts:26-27 | a base URL with and without one trailing slash reaches the same endpoint |
| `Rooms.RoomsRequest` | src/hooks/useRooms.ts:27-33 | a `GET` of the endpoint carrying the `x-api-key` and JSON content-type headers |
| `Rooms.Classify` | src/hooks/useRooms.ts:35-55 | success exactly for a 2xx response whose body is an array, giving that array; 401 gives `Unauthorized: Check API Key`; other non-2xx gives `Failed to fetch rooms: ` + statusText; a non-array body gives `Invalid API response format`; network and parse errors give their own message |
| `Rooms.RoomList.constructor` | src/hooks/useRooms.ts:11-13 | initial state: no rooms, not loading, no error |
| `Rooms.RoomList.SetConfig` | src/hooks/useRooms.ts:10 | new hook arguments; state kept |
| `Rooms.RoomList.StartFetch` | src/hooks/useRooms.ts:15-27 | empty URL or key: error `Missing API URL or Key`, no request, rooms and `isLoading` unchanged; otherwise `isLoading` true, error null, and the rooms request is sent |
| `Rooms.RoomList.FinishFetch` | src/hooks/useRooms.ts:27-55 | success sets `rooms` to the array; every error path sets `error` and clears `rooms`; `isLoading` is false after every outcome |

## Left out

- The relay server (authentication, room registry, fan-out) is not part of this repository, so it is not modelled. `verify.ts` only exercises it over the network.
- `verify.ts`, `electron/main.ts` and `electron/preload.ts` are not modelled. They are network scripts and IPC wrappers around a foreign library.
- Rendering is not modelled: markup, class names, animation, the auto-scroll effect, the React `key`, `toLocaleTimeString`, and the settings panel with its `cn` helper.
- Clocks and randomness are parameters. `Date.now()` is the `now` argument. `Math.random().toString(36)` is the `randomBase36` argument.
- Calls into foreign code are inputs. These are the bridge's `connect` and `disconnect`, `io(...)`, `fetch` and `response.json()`. Their results, or the messages they throw, are arguments.
- JavaScript numbers are Dafny integers. Fractional or NaN timestamps and diamond counts are not covered. Neither is the exponent notation `String(n)` uses from 1e21 up.
- String lengths count Dafny characters, not UTF-16 code units. `nickname.length`, `charAt(0)` and `substr` differ from the model on characters outside the Basic Multilingual Plane.
- A JSON object is a map, so duplicate keys and key order are not represented.
- React scheduling is not modelled: batching of state updates, effect ordering, and asynchronous interleaving. The caller calls the effects and handlers in the order React and socket.io would.
- socket.io's reconnection and timeout behaviour is not modelled. The attempt count and timeout are only recorded in the `Opened` action. A reconnect shows up as another `OnConnect`.
- Console logging is not modelled. This covers the acknowledgement of a room-switch join, which only logs, and the failed-emit acknowledgement, which only logs (`EmitAckFailed` states when it would).
- The `if` at src/hooks/useSocketConnection.ts:35-38 has an empty body and no effect.
- Nothing in the repository wires the forwarding client, the room list or the chat prefix filter. The app calls `useTikTokLive()` without an `onNewChat` callback, no file calls `useSocketConnection`, `sendToSocket` or `useRooms`, and the settings panel only holds the prefix text in an input. So there is no forwarding path to model.
- SocketConnection.SocketClient.OnConnect: requires a current socket. It models the events of the socket the hook holds. Events raised by a socket the hook no longer references are not modelled.
- SocketConnection.SocketClient.OnConnectError: requires a current socket, for the same reason.
- SocketConnection.SocketClient.OnDisconnect: requires a current socket, for the same reason. The `disconnect` event raised by the hook's own `disconnect()` call is folded into LifecycleCleanup and LifecycleEffect instead.
- TikTokLive.LiveSession.Disconnect: models the bridge's `disconnect()` call resolving. If it rejects, the source changes nothing and the rejection goes to the caller.
- Rooms.RoomList.FinishFetch: nothing ties a completion to the fetch that started it. Overlapping fetches may finish in either order, as in the source.
