# Floorball broadcast control panel: session, mock server and match API, modelled in Dafny

This project models the logic core of a floorball broadcast control panel that drives OBS
Studio over the obs-websocket 5 protocol and reads match data from the
Torneopal API. It has three parts:

- **The OBS WebSocket client** (`ObsClient.ObsWebSocketClient`). It covers:
  - the Hello → Identify → Identified handshake, with optional
    challenge-response authentication;
  - the request correlator (a counter that starts at 1 and a map from
    request id to pending promise);
  - the event-listener registry and the `matchData` update on a
    `MatchUpdate` custom event;
  - the reconnect guard.
  Sends, socket closes, calls of the connect promise's resolve and reject,
  settlements of request promises and listener calls go to a `trace` of
  actions, in order.
- **The development server** (`DevServer`). It stands in for OBS: it accepts
  every Identify, keeps persistent-data slots keyed `realm:slotName`, answers
  Get/Set requests and fans `CustomEvent` frames out to every open client.
  `Handle` is the pure transition function (store, clients, frame) → (store',
  sends). The `DevServer` class runs it on its fields.
- **The Torneopal wrapper** (`Torneopal`). It covers:
  - the query `makeRequest` builds (the API-key guard, then `api_key` plus
    every param that is neither null nor undefined);
  - the parameter objects of `getMatches` and `getTeams`;
  - the local-match table in `localStorage` (`createLocalMatch`,
    `getLocalMatch`, `deleteLocalMatch`, `getMatchEnhanced`);
  - the selected-match slots.
  `localStorage` is a `map<string, string>`.

Supporting modules:
- `Wrappers`: Option and Result.
- `JsValue`: JavaScript values, truthiness, property reads that throw on
  null and undefined, `String(v)`, and an abstract JSON codec.
- `Base64`: RFC 4648 section 4, with its decode/encode round trip.
- `Auth`: `base64Encode` and `generateAuthResponse`.
- `Protocol`: the frames of both directions.

SHA-256 is a parameter: a function from text to bytes or an error. JSON text
is a codec parameter, and a round-trip lemma assumes only that the codec reads
back the value it wrote.

## Model

| member | source | states |
|---|---|---|
| ObsClient.ObsWebSocketClient.constructor | src/lib/obsWebSocket.js:12-20 | no socket, password "", no reconnect interval, request counter 1, empty callback and listener maps, status disconnected |
| ObsClient.ObsWebSocketClient.Connect | src/lib/obsWebSocket.js:22-31 | stores password and url, opens a socket, and makes the connect promise's resolve and reject pending |
| ObsClient.ObsWebSocketClient.OnOpen | src/lib/obsWebSocket.js:32-35 | status becomes connecting; the socket has left the CONNECTING state (open) |
| ObsClient.ObsWebSocketClient.OnClose | src/lib/obsWebSocket.js:37-41 | status becomes disconnected, the socket has left the CONNECTING state (closed), and a reconnect is pending; an already pending one is kept, otherwise the new one targets the url or "ws://localhost:4455" and the password or ""; callbacks are not touched |
| ObsClient.ObsWebSocketClient.OnError | src/lib/obsWebSocket.js:43-50 | status becomes error and the socket has left the CONNECTING state; connectReject is called only while it is set, then cleared, so at most once (after a successful handshake that call finds the promise fulfilled and has no effect) |
| ObsClient.IdentifyMessage | src/lib/obsWebSocket.js:61-76 | op 1 on the wire, rpcVersion 1, eventSubscriptions 33; the authentication field is present exactly when the auth string is truthy, and then it is that string |
| ObsClient.ObsWebSocketClient.Identify | src/lib/obsWebSocket.js:61-76 | sends exactly that Identify message and nothing else |
| ObsClient.ObsWebSocketClient.HandleMessage | src/lib/obsWebSocket.js:83-107 | dispatches ops 0, 2, 5 and 7 to their handlers with their full effect (the handshake's sends, status and calls of connectReject; the matchData update and listener calls; the settlement of a pending request); each handler touches only its own fields; any other op changes nothing at all |
| ObsClient.ObsWebSocketClient.HandleIdentified | src/lib/obsWebSocket.js:90-97 | status connected; the connect promise resolves only if its resolve is still pending, which is then cleared |
| ObsClient.HelloReaction | src/lib/obsWebSocket.js:109-146 | no challenge: Identify without auth; challenge and null password: fail with "Authentication required but no password provided"; challenge and password: Identify exactly when the auth string can be computed |
| ObsClient.HandshakeActions | src/lib/obsWebSocket.js:111-145 | the actions of one handshake step: the Identify send, or a rejection while reject is pending followed by closing the socket |
| ObsClient.ObsWebSocketClient.HandleHello | src/lib/obsWebSocket.js:109-146 | carries out HelloReaction; a failed handshake sets status error, rejects at most once, closes the socket and sends no Identify |
| ObsClient.HelloWithPassword | src/lib/obsWebSocket.js:109-169 | with a password and a 32-byte digest, the Identify carries the 44-character auth string b64(H(b64(H(password + salt)) + challenge)), which decodes to that digest |
| Auth.AuthResponseVerifiable | src/lib/obsWebSocket.js:148-169 | succeeds exactly when both digests succeed; the result is b64(H(secret + challenge)) with secret = b64(H(password + salt)), and decodes to that digest while the secret decodes to the first; failures carry the "Failed to generate auth response: " prefix |
| Auth.GenerateAuthResponse | src/lib/obsWebSocket.js:148-169 | base64(sha256(base64(sha256(password + salt)) + challenge)), a failing digest giving the prefixed error; its properties are stated by AuthResponseVerifiable |
| Auth.AuthResponseLength | src/lib/obsWebSocket.js:148-169 | a 32-byte digest gives a 44-character response |
| Auth.Base64Encode | src/lib/obsWebSocket.js:179-186 | the loop's binary string maps each byte to one char, so btoa never fails; the result is the RFC 4648 encoding and decodes back to the bytes |
| Base64.DecodeEncode | src/lib/obsWebSocket.js:185 | decoding the base64 text of any byte sequence gives back that sequence |
| Base64.EncodeLength | src/lib/obsWebSocket.js:185 | the text has 4·⌈n/3⌉ characters |
| Base64.Btoa | src/lib/obsWebSocket.js:185 | succeeds exactly when every char code is below 256 |
| ObsClient.Notifications | src/lib/obsWebSocket.js:196-198 | one call per listener, in list order, each with the event |
| ObsClient.Listeners | src/lib/obsWebSocket.js:197 | the type's list, or [] for an unknown type |
| ObsClient.IsMatchUpdate | src/lib/obsWebSocket.js:189-191 | a CustomEvent whose eventData is truthy and whose eventName is "MatchUpdate" |
| ObsClient.NotificationsSnoc | src/lib/obsWebSocket.js:196-198 | one more listener adds its call at the end, after all earlier ones |
| ObsClient.ObsWebSocketClient.HandleEvent | src/lib/obsWebSocket.js:188-199 | a CustomEvent whose eventName is "MatchUpdate" replaces matchData with its eventData; matchData is otherwise unchanged; then the type's listeners are called in order |
| ObsClient.Settlement | src/lib/obsWebSocket.js:222-228 | fulfilled with responseData exactly when requestStatus.result is truthy, otherwise rejected with requestStatus.comment |
| ObsClient.ObsWebSocketClient.HandleResponse | src/lib/obsWebSocket.js:201-207 | an id with no pending callback changes nothing; a pending one is settled once, and exactly its entry is removed |
| ObsClient.FreshRequestId | src/lib/obsWebSocket.js:211 | with every pending id below the counter, the counter's decimal string is not a pending id |
| ObsClient.ObsWebSocketClient.SendRequest | src/lib/obsWebSocket.js:209-232 | returns the old counter and increments it; registers a fresh callback under the counter's decimal string; sends the Request with that id; no connection check: with no socket the promise rejects with a TypeError, and on a socket still connecting with InvalidStateError; a socket that has left CONNECTING (open, or closed by an error or close) takes the send, and a closed one drops it, so the promise stays pending |
| ObsClient.IndexOf | src/lib/obsWebSocket.js:367 | the first index holding the callback, -1 exactly when it is absent |
| ObsClient.RemoveFirst | src/lib/obsWebSocket.js:366-370 | removes exactly the first occurrence (multiset minus one), and is the identity when the callback is absent |
| ObsClient.AddListener | src/lib/obsWebSocket.js:357-362 | appends the callback to its type's list, creating the list if needed; other types are unchanged |
| ObsClient.RemoveListener | src/lib/obsWebSocket.js:364-372 | removes the first occurrence from the type's list; other types are unchanged; absent callback or unknown type: no change |
| ObsClient.RemoveAfterAdd | src/lib/obsWebSocket.js:357-372 | removing a callback just added (not already listed) leaves the registry as before, apart from an empty list for a new type |
| ObsClient.ObsWebSocketClient.AddEventListener | src/lib/obsWebSocket.js:357-362 | the registry becomes AddListener of the old one |
| ObsClient.ObsWebSocketClient.RemoveEventListener | src/lib/obsWebSocket.js:364-372 | the registry becomes RemoveListener of the old one |
| ObsClient.ObsWebSocketClient.AttemptReconnect | src/lib/obsWebSocket.js:374-389 | does nothing while an interval is pending; otherwise schedules one with url, or "ws://localhost:4455" when url is falsy, and password, or "" |
| ObsClient.ObsWebSocketClient.ReconnectTick | src/lib/obsWebSocket.js:380-382 | a tick connects again with the remembered url and password |
| ObsClient.ObsWebSocketClient.ReconnectSucceeded | src/lib/obsWebSocket.js:383-384 | a successful attempt clears the interval |
| ObsClient.ObsWebSocketClient.Disconnect | src/lib/obsWebSocket.js:391-401 | clears the interval, closes the socket if there is one, and drops it |
| ObsClient.DisconnectThenClose | src/lib/obsWebSocket.js:37-41 | after disconnect, the closed socket's close handler schedules a reconnect again |
| DevServer.DevServer.constructor | dev-ws-server.js:12-13 | empty store, no clients |
| DevServer.DevServer.Open | dev-ws-server.js:174-189 | adds the client to the set and sends it Hello 5.0.0, rpcVersion 1, challenge "devchallengestring", salt "devsaltstring" |
| DevServer.Without | dev-ws-server.js:197 | the set without that client, all others kept, no client twice |
| DevServer.DevServer.Close | dev-ws-server.js:195-198 | removes exactly that client |
| DevServer.FanoutSends | dev-ws-server.js:24-31 | every send goes to a client in the set that is open and not the sender, carries the frame, and every such client gets it |
| DevServer.FanoutStep | dev-ws-server.js:26-29 | one more client of the set adds one send at the end exactly when it is open and not the sender |
| DevServer.Fanout | dev-ws-server.js:24-31 | the sends of `broadcast`: the clients in set order, skipping the sender and sockets that are not open; its properties are stated by FanoutSends and FanoutOnce |
| DevServer.FanoutOnce | dev-ws-server.js:24-31 | each open non-sender client gets exactly one copy, every other socket none |
| DevServer.DevServer.Broadcast | dev-ws-server.js:24-31 | the loop's sends are exactly Fanout of the client set |
| DevServer.Handle | dev-ws-server.js:34-159 | unparsable or null frame: nothing; op 1: Identified with negotiatedRpcVersion 1 to the sender, whatever it carries; any op other than 1 and 6: no send and no change; only a SetPersistentData request changes the store |
| DevServer.HandleAddsOneKey | dev-ws-server.js:34-159 | a frame adds at most one key to the store and removes none |
| DevServer.HandleSends | dev-ws-server.js:34-159 | only the custom event reaches other sockets; every response goes to the requester and echoes the request's type and id, succeeding with code 100 exactly for the three known types |
| DevServer.HandleRequest | dev-ws-server.js:51-151 | only SetPersistentData changes the store |
| DevServer.RequestSends | dev-ws-server.js:51-151 | the send properties of HandleSends for the payload of an op 6 frame |
| DevServer.HandleRequestFrame | dev-ws-server.js:51-52 | an op 6 frame is handled through its `d` payload, whose requestType, requestId and requestData are read as sent |
| DevServer.ClientFrames | src/lib/obsWebSocket.js:61-76 | the server answers the client's Identify frame, with or without authentication, with Identified; the client's Request frame carries its id as a string |
| DevServer.DevServer.HandleMessage | dev-ws-server.js:34-159 | the store and the sends become those of Handle |
| DevServer.DevServer.HandleRequestPayload | dev-ws-server.js:51-151 | the store and the sends become those of HandleRequest |
| DevServer.Response | dev-ws-server.js:63-73 | an op 7 frame to the requester with the request's requestType and requestId |
| DevServer.SetSlot | dev-ws-server.js:56-77 | the key `realm:slotName` now holds slotValue and every other key keeps its value; one reply, a success with code 100 echoing the request, with empty responseData |
| DevServer.GetSlot | dev-ws-server.js:79-100 | leaves the store alone; one reply, a success with code 100 echoing the request, whose slotValue is the stored value when it is truthy and null when the key was never written or holds a falsy value |
| DevServer.BroadcastEvent | dev-ws-server.js:102-132 | leaves the store alone |
| DevServer.BroadcastEventSends | dev-ws-server.js:102-130 | only the CustomEvent reaches other clients; the one response is a success echoing the request |
| DevServer.BroadcastSent | dev-ws-server.js:102-130 | the sends are the fan-out to every open client, then the event to the requester, then the success response |
| DevServer.UnknownRequest | dev-ws-server.js:134-149 | leaves the store alone; one reply, result false, code 203, comment "Unknown request type: X", echoing the request |
| DevServer.SetThenGet | dev-ws-server.js:56-100 | GetPersistentData after SetPersistentData on the same realm and slot returns the written value, or null when it is falsy, from any client |
| DevServer.BroadcastDeliveries | dev-ws-server.js:102-130 | each open client gets the CustomEvent once; the requester gets a second copy and then the success response, in that order |
| DevServer.SlotKeyInjective | dev-ws-server.js:59 | keys of realms without ':' determine realm and slot name |
| DevServer.SlotKey | dev-ws-server.js:59 | the template literal: the realm's string form, a colon, the slot name's string form |
| DevServer.ColonSplit | dev-ws-server.js:59 | a key `a:s` with no colon in `a` splits back into `a` and `s` |
| DevServer.SlotKeyCollisions | dev-ws-server.js:59 | a colon in the realm, or a number against its decimal string, makes two slots share a key |
| Torneopal.TorneopalApi.constructor | src/lib/torneopalApi.js:7-17 | the API key is the stored one, or "" |
| Torneopal.TorneopalApi.SetApiKey | src/lib/torneopalApi.js:22-25 | sets the key and stores it |
| Torneopal.QuerySetGet | src/lib/torneopalApi.js:38 | after `searchParams.set`, the name reads as the value and every other name as before |
| Torneopal.QuerySetKeeps | src/lib/torneopalApi.js:38 | `searchParams.set` adds only that pair and keeps names unique |
| Torneopal.RemoveAllGet | src/lib/torneopalApi.js:38 | dropping a name's pairs makes it absent and keeps every other name |
| Torneopal.RemoveAllKeeps | src/lib/torneopalApi.js:38 | dropping a name's pairs keeps only pairs of the query with other names, still unique |
| Torneopal.BuildQueryDistinct | src/lib/torneopalApi.js:38-43 | the query built by the loop never holds a name twice |
| Torneopal.BuildQuery | src/lib/torneopalApi.js:38-43 | the query after `api_key` and the first n params; its contents are stated by QueryContents |
| Torneopal.QueryContents | src/lib/torneopalApi.js:38-43 | the query holds `api_key` and the text of every param that is neither null nor undefined; a null or undefined param is left out |
| Torneopal.TorneopalApi.MakeRequest | src/lib/torneopalApi.js:30-43 | an empty key fails with "API key is required" before any request; otherwise the loop's query is the one QueryContents describes |
| Torneopal.RunAssigns | src/lib/torneopalApi.js:95-107 | after a run of `if (c) params.k = v` lines, a key named by one line holds what that line assigned, if anything |
| Torneopal.RunUnset | src/lib/torneopalApi.js:95-107 | a key no line names is not set |
| Torneopal.KeyAssigned | src/lib/torneopalApi.js:95-107 | with distinct keys, each key holds what its own line assigned, if anything |
| Torneopal.KeyUnset | src/lib/torneopalApi.js:95-107 | a key outside the list of lines is not set |
| Torneopal.MatchKeysDistinct | src/lib/torneopalApi.js:96-107 | the getMatches lines assign eleven different names, none of them api_key |
| Torneopal.MatchParams | src/lib/torneopalApi.js:94-108 | the params object getMatches builds, as its eleven assignment lines; stated by MatchParamsFixed, MatchParamsPlace and MatchParamsPaging |
| Torneopal.MatchParamsFixed | src/lib/torneopalApi.js:95-97 | competition_id "sb2025" and category_id 444 always; never api_key |
| Torneopal.MatchParamsPlace | src/lib/torneopalApi.js:99-102 | venue, team, club and category filters are set exactly when truthy |
| Torneopal.MatchParamsPaging | src/lib/torneopalApi.js:103-107 | date filters and page set when truthy; per_page = min(limit, 100) for a non-zero limit; official_only = 1 when officialOnly is truthy |
| Torneopal.MatchQueryHolds | src/lib/torneopalApi.js:94-110 | the getMatches query: the key, "sb2025", "444", each truthy filter as text, and per_page at most 100 |
| Torneopal.MatchQueryBuilt | src/lib/torneopalApi.js:94-110 | the query makeRequest builds from getMatches' params is that query |
| Torneopal.TorneopalApi.GetMatches | src/lib/torneopalApi.js:94-110 | fails exactly when the key is empty; otherwise requests getMatches with that query |
| Torneopal.TorneopalApi.GetMatch | src/lib/torneopalApi.js:115-117 | fails exactly when the key is empty; otherwise requests getMatch with api_key and with match_id, unless the id is null or undefined |
| Torneopal.TeamParamsContents | src/lib/torneopalApi.js:131-135 | club_id, district and category are set exactly when truthy, and nothing else |
| Torneopal.TeamParams | src/lib/torneopalApi.js:131-135 | the params object getTeams builds, as its three assignment lines; stated by TeamParamsContents |
| Torneopal.TeamQueryOnly | src/lib/torneopalApi.js:130-138 | the getTeams query holds no name besides api_key and the three filters |
| Torneopal.TeamQueryHolds | src/lib/torneopalApi.js:130-138 | the getTeams query: the key and each truthy filter as text |
| Torneopal.TeamQueryBuilt | src/lib/torneopalApi.js:130-138 | the query makeRequest builds from getTeams' params is that query |
| Torneopal.TorneopalApi.GetTeams | src/lib/torneopalApi.js:130-138 | fails exactly when the key is empty; otherwise requests getTeams with that query |
| Torneopal.StoredLocalMatches | src/lib/torneopalApi.js:253-256 | `{}` when nothing or "" is stored; fails exactly when stored text does not parse |
| Torneopal.LocalMatch | src/lib/torneopalApi.js:261-264 | the result is null or a truthy value: the table's own entry for the id, or null when it is falsy (LocalMatchIn) |
| Torneopal.IsLocalMatch | src/lib/torneopalApi.js:269-271 | true exactly for the string "local-match" |
| Torneopal.LocalMatchRecord | src/lib/torneopalApi.js:212-240 | throws TypeError exactly when the match data or its homeTeamData is null or undefined |
| Torneopal.LocalMatchIdentity | src/lib/torneopalApi.js:226-240 | match_id "local-match", is_local true, created_at the given time |
| Torneopal.LocalMatchSchedule | src/lib/torneopalApi.js:226-229 | date and time are copied from the match data |
| Torneopal.LocalMatchDefaults | src/lib/torneopalApi.js:220-221 | venue "Local Venue" and category "Local Match" exactly when those fields are undefined |
| Torneopal.LocalMatchFallbacks | src/lib/torneopalApi.js:230-233 | team_A_name falls back to "Home Team" and both crests fall back to "" when falsy |
| Torneopal.LocalMatchTeams | src/lib/torneopalApi.js:213-239 | team_B_name, home_team_id and home_team_data are copied from the match data |
| Torneopal.SetProperty | src/lib/torneopalApi.js:244 | an object gains the entry; an array keeps it as a property that its JSON leaves out; null, undefined and other primitives throw |
| Torneopal.LocalMatchIn | src/lib/torneopalApi.js:261-264 | with a stored table, getLocalMatch reads that id's entry, or null when it is falsy |
| Torneopal.StoredAfterWrite | src/lib/torneopalApi.js:245-255 | a table written back reads back as written |
| Torneopal.PutLocal | src/lib/torneopalApi.js:243-245 | touches no other storage item; succeeds exactly when the stored table parses to an object or array |
| Torneopal.PutThenGet | src/lib/torneopalApi.js:243-264 | after storing a record in an object table, the local id reads back as the record and every other id as before |
| Torneopal.CreateLocal | src/lib/torneopalApi.js:212-248 | returns the record; succeeds exactly when the record builds and the stored table parses to an object or array; touches no other storage item |
| Torneopal.CreateThenGet | src/lib/torneopalApi.js:243-264 | after creating, getLocalMatch("local-match") is the new record, overwriting any earlier one; every other entry reads as before |
| Torneopal.TorneopalApi.CreateLocalMatch | src/lib/torneopalApi.js:212-248 | returns CreateLocal's record and takes its storage; on error, nothing is stored |
| Torneopal.DeleteLocal | src/lib/torneopalApi.js:291-299 | false leaves storage as it was; no item other than the table changes (own entries only) |
| Torneopal.DeleteThenGet | src/lib/torneopalApi.js:291-299 | true exactly when the entry was truthy; then it reads back as null and the other entries are unchanged; otherwise nothing changes |
| Torneopal.TorneopalApi.DeleteLocalMatch | src/lib/torneopalApi.js:291-299 | returns DeleteLocal's answer and takes its storage |
| Torneopal.TorneopalApi.GetMatchEnhanced | src/lib/torneopalApi.js:276-286 | "local-match" is served only from the local table and fails with "Local match not found" when the entry is missing; any other id goes to getMatch, with api_key and match_id in the query |
| Torneopal.StoreSelected | src/lib/torneopalApi.js:169-172 | writes the two slots and nothing else |
| Torneopal.TorneopalApi.StoreSelectedMatch | src/lib/torneopalApi.js:169-172 | storage becomes StoreSelected of the old storage |
| Torneopal.SelectedMatch | src/lib/torneopalApi.js:177-192 | not null exactly when both slots hold non-empty text and the data parses; then it is the id and the parsed data |
| Torneopal.ClearSelected | src/lib/torneopalApi.js:197-200 | both slots gone, all other items unchanged |
| Torneopal.TorneopalApi.ClearStoredMatch | src/lib/torneopalApi.js:197-200 | storage becomes ClearSelected of the old storage |
| Torneopal.SelectedRoundTrip | src/lib/torneopalApi.js:169-192 | a stored selection with a non-empty id reads back as stored |
| Torneopal.ClearThenGet | src/lib/torneopalApi.js:177-200 | after clearStoredMatch, getStoredSelectedMatch returns null |

## Left out

- SHA-256 (`crypto.subtle.digest`) and `TextEncoder` are a parameter `sha256` of the client. Only the composition in `generateAuthResponse` is proved.
- `btoa` is modelled as RFC 4648 section 4 over char codes below 256, which is all `base64Encode` gives it.
- WebSocket construction and the wiring of `onopen`, `onclose`, `onerror` and `onmessage` are left out. The handlers are methods that a caller invokes in any order.
- Promises and async scheduling are left out. The `trace` records the calls of the connect promise's resolve and reject, and the settlements of `sendRequest` promises. A call of resolve or reject after the connect promise has settled has no effect; the trace still lists it, for example a socket error after a successful handshake.
- Base64.Decode does not reject non-zero pad bits (section 3.5 of RFC 4648 lets a decoder accept them), so it is not injective. The auth string is therefore also stated as the exact encoding.
- The 5-second `setInterval` is only the pending/absent `reconnectInterval` plus the `ReconnectTick` and `ReconnectSucceeded` steps. A failed attempt's own socket is not modelled apart from the fields `connect` sets.
- Svelte stores are plain fields: `connectionStatus` and `matchData`.
- Console logging is left out throughout.
- A listener that throws is not modelled. Every listener in `handleEvent` is taken to return normally.
- ObsClient.ObsWebSocketClient.HandleEvent: the listeners are called over a snapshot of the type's list. In the source `forEach` walks the live array, so a listener that removes itself (the in-place `splice` of `removeEventListener`) makes the loop skip the next listener, and one that adds a listener does not get it called in that round; the model does not capture this aliasing.
- Torneopal.LocalMatch: reads own properties of the stored table only. In the source `localMatches[matchId]` also finds members inherited from `Object.prototype`, so an id such as "toString" or "constructor" reads as a function rather than null. Functions and the prototype chain are not part of the value model.
- Torneopal.DeleteLocal: for the same reason an inherited name such as "toString" gives false and no write, where the source returns true and writes the unchanged table back.
- ObsClient.ObsWebSocketClient.HandleHello and Identify take the socket as open: a Hello can only arrive after `open`, which the model does not enforce on the order of handler calls.
- `JSON.parse` and `JSON.stringify` are an abstract codec. Lemmas that read stored JSON back assume the codec round-trips the value at hand and writes non-empty text.
- The client's frames arrive already decoded as typed Hello, Identified, Event and RequestResponse values. The server's input is a raw JSON value, because its TypeError paths depend on its shape.
- Numbers are integers. A non-integer `limit` in `getMatches` is not modelled.
- `getMatches(null)` and `getTeams(null)` are not modelled: the filter objects are records with undefined defaults.
- Built-in properties of strings and arrays (`length`, indices) are not property reads here. In particular, an array stored as the local-match table has no entries.
- `Date.prototype.toISOString()` in `createLocalMatch` becomes the parameter `createdAt`.
- `fetch`, URL resolution against the base URL, HTTP status handling and the `data.error` check of `makeRequest` are left out. The model stops at the request it would issue (endpoint and query).
- The thin wrappers are left out because they only pick a payload: `getDistricts`, `getClubs`, `getVenues`, `getScore`, `getTeam`, `getClub` and `testConnection` in the Torneopal wrapper, and `setMatchData` and the `send*` payload builders in the client.
- `Bun.serve`, the HTTP 426 fallback, the console banner and the SIGINT handler of the development server are left out.
- A socket's `readyState` is the parameter `readyOpen`, the set of sockets that are open at that moment.
- The code is modelled as written; in particular:
  - Pending request callbacks are never failed or cleared when the socket closes.
  - `sendRequest` does not check the connection state.
  - `disconnect()` does not stop a later reconnect (`ObsClient.DisconnectThenClose`).
