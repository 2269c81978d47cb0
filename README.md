# Party player: room relay and echo suppression, in Dafny

Party player lets several viewers watch one video in lock-step. It has two parts that hold real state:

- **The relay server** (`chrome-pp-server/index.ts`). It keeps a map from room id to room. A room holds its member WebSocket connections and the url it was created for. A `join` creates an unknown room only when it comes with a truthy url. It adds the sender and answers the sender with `joined`. A `message` is forwarded unchanged to every other member of the room. `close` takes the connection out of every room and deletes each room that becomes empty.
- **The content script's sync engine** (`chrome-pp-extension/content.js`). It puts three listeners on the page's video. They post `{type, time}` for local play, pause and seek events unless the `ignoreNextEvent` flag is set. Commands from the extension (`play`, `pause`, `seek`) set that flag, then move the video, then schedule a 100 ms timer that clears the flag again. `exit` and `error` remove the listeners and pause the video.

Files:

- `lists.dfy` (module `Lists`): `NoDup`, the duplicate-free property of a sequence used as a set, shared by room members and video listeners.
- `envelope.dfy` (module `Envelope`): parsed JSON values with JavaScript truthiness, and the relay's inbound and outbound envelopes.
- `relay.dfy` (module `Relay`): pure functions describing each handler over `map<string, Room>`, the lemmas about them, and the class `Server`. The class updates the open-connection set, the room map and an outbox in place, with loops for broadcast and close. Its methods are proved equal to the functions.
- `sync.dfy` (module `Sync`): the engine's state as a datatype, with `Step` and `Run` over explicit inputs and the lemmas about runs. The class `Engine` has one field per piece of the script's state. Its methods are proved equal to `Step`.

Modelling choices:

- A room's member set is a duplicate-free sequence. A JavaScript `Set` iterates in insertion order, so the order in which a broadcast sends is modelled exactly. Room values live inside the map; the source never lets a room object escape the map, so there is no aliasing to model.
- Each `send` is appended to an outbox of `(connection, envelope)` records. Each `postMessage` is appended to a list of `(port, {type, time})` records.
- Timers and the promise returned by `play()` are explicit inputs: `PlayResolved`, `PlayRejected` and `TimerFired`. Pending promises and timers are counters. Each command schedules its own timer, and whichever timer fires first clears the flag.
- Each listener closure gets a fresh identity. This keeps apart the listeners of two `addEventListeners` calls, as the browser does. Every reachable state keeps every listener's identity below the next one handed out and has no listener twice (`Sync.Sound`).
- The video's time and play state change by themselves during playback and when the user acts. That is the input `VideoChanged(v)`: it sets the video's state and runs no listener. The event the browser dispatches afterwards is a separate `Local` input. Continuous playback becomes a sequence of such jumps.
- `currentTime` is a `real`, because the code only copies it. A command's `time` is what the video's `currentTime` setter receives: a finite number, or `None` when the message's `time` is missing or converts to NaN or an infinity. The setter rejects `None` by throwing, after `ignoreNextEvent` has already been set.

The model follows the code as written, including four behaviours a reader might not expect:

- A second `join` from the same connection is not ignored. It adds the connection to the other room as well (`index.ts:20-37`).
- A `join` for an unknown room without a url sends no error to the client. It only logs (`index.ts:32-34`).
- Suppression timers stack rather than being reset by a newer command (`content.js:65,72,77`; see `Sync.TimersStack`).
- `close` deletes every room that is empty after the removal, whether or not the closing connection was in it (`index.ts:62-66`). Because every handler keeps all rooms non-empty (`Relay.RoomsNeverEmpty`), this deletes only rooms the connection left empty.

## Model

| member | source | states |
|---|---|---|
| `Relay.Add` | chrome-pp-server/index.ts:36 | `Set.add`: membership becomes old members plus the new one, an existing member changes nothing, existing members keep their order, no duplicates appear |
| `Relay.Delete` | chrome-pp-server/index.ts:63 | `Set.delete`: exactly the old members other than `c` remain; deleting a non-member changes nothing |
| `Relay.DeleteNoDup` | chrome-pp-server/index.ts:63 | deleting from a duplicate-free member list keeps it duplicate-free and shortens it by one exactly when `c` was a member |
| `Relay.JoinRooms` | chrome-pp-server/index.ts:20-36 | a room exists after a join iff it existed or the content is truthy; a new room is exactly `{ws}` with url = content; an existing room keeps its url and gains only `ws`; re-joining changes nothing; an unknown room with falsy content creates nothing; no other room changes; no room becomes empty |
| `Relay.JoinReplies` | chrome-pp-server/index.ts:31-37 | a join sends nothing iff the room is unknown and the content falsy; otherwise exactly one `joined` envelope, to the sender, carrying the existing room's url or, for a new room, the content |
| `Relay.FanOutRecipients` | chrome-pp-server/index.ts:43-47 | the broadcast loop sends to exactly the room's members with the sender deleted, in membership order |
| `Relay.FanOutDeliveries` | chrome-pp-server/index.ts:43-47 | every send of the broadcast loop carries the same envelope to a member other than the sender |
| `Relay.MessageReplies` | chrome-pp-server/index.ts:39-49 | a message to an unknown room sends nothing; otherwise `{type:"message", roomId, content}` with content unchanged goes to exactly `clients \ {ws}`, once each, never to the sender; a sole member's message sends nothing |
| `Relay.Handle` | chrome-pp-server/index.ts:16-53 | dispatch on `type`: only `join` changes rooms; `message` with a non-empty roomId broadcasts; anything else sends nothing; join replies go only to the sender and broadcasts never do; the non-empty-room invariant is kept |
| `Relay.CloseRooms` | chrome-pp-server/index.ts:58-67 | after close, `ws` is in no room, no room is empty, rooms keep their url and their other members, a room is deleted only if `ws` was its only member, and rooms without `ws` are unchanged; each surviving room's members are exactly `Delete(clients, ws)`, so they keep their order |
| `Relay.CloseIdempotent` | chrome-pp-server/index.ts:58-67 | closing the same connection twice has the same effect as closing it once |
| `Relay.RoomsNeverEmpty` | chrome-pp-server/index.ts:16-68 | over any sequence of open, message and close events, every room in the registry keeps at least one member and no duplicates |
| `Relay.LastLeaveForgetsRoom` | chrome-pp-server/index.ts:23-67 | when the last member closes, the room is deleted; a later join without a url gets no reply, and a message to that room reaches nobody |
| `Relay.JoinThenRelay` | chrome-pp-server/index.ts:20-47 | scenario: a creator's join, then a second join with an empty url that receives the stored url, then a message that reaches only the second member, unchanged |
| `Relay.Server.constructor` | chrome-pp-server/index.ts:1-6 | the server starts with no open connection, no room and nothing sent |
| `Relay.Server.Open` | chrome-pp-server/index.ts:54-57 | `open` adds the connection to the open set and changes nothing else |
| `Relay.Server.OnMessage` | chrome-pp-server/index.ts:16-53 | the message handler leaves the rooms and outbox that `Handle` gives, and leaves the open set alone |
| `Relay.Server.Join` | chrome-pp-server/index.ts:20-38 | the join branch, updating the map in place, leaves exactly `JoinRooms` and appends exactly `JoinReplies` |
| `Relay.Server.Broadcast` | chrome-pp-server/index.ts:39-49 | the send loop appends exactly `MessageReplies` and changes no room |
| `Relay.Server.Close` | chrome-pp-server/index.ts:58-67 | the loop over all rooms, deleting as it goes, leaves exactly `CloseRooms`, removes `ws` from the open set and sends nothing |
| `Sync.Register` | chrome-pp-extension/content.js:32-34 | `addEventListener`: afterwards exactly the old listeners and the new one are registered, the list grows by at most one, and a listener already registered changes nothing |
| `Sync.RegisterKeepsOrder` | chrome-pp-extension/content.js:32-34 | registering leaves the earlier registrations in place and in their order, with at most the new listener after them |
| `Sync.RegisterNoDup` | chrome-pp-extension/content.js:32-34 | registering never puts a listener on the video twice |
| `Sync.Without` | chrome-pp-extension/content.js:42-44 | `removeEventListener` leaves exactly the other listeners and never grows the list |
| `Sync.WithoutNoDup` | chrome-pp-extension/content.js:42-44 | removing a listener never creates a duplicate |
| `Sync.WithoutSnoc` | chrome-pp-extension/content.js:42-44 | removing from a list with one more listener at its end removes it there if it is the one removed and otherwise keeps it last |
| `Sync.UnregisterNoDup` | chrome-pp-extension/content.js:42-44 | emptying a slot never creates a duplicate |
| `Sync.Unregister` | chrome-pp-extension/content.js:42-44 | removing a slot's listener leaves exactly the listeners other than the one in the slot; a `null` slot removes nothing |
| `Sync.Handlers` | chrome-pp-extension/content.js:32-34 | the listeners called for an event are exactly the registered listeners for that event type, and there are no more of them than registered listeners |
| `Sync.HandlersCount` | chrome-pp-extension/content.js:32-34 | the video calls each listener registered for the event as many times as it is registered, and any other listener never |
| `Sync.HandlersNoDup` | chrome-pp-extension/content.js:32-34 | on a list without duplicates, each listener for the event is called exactly once |
| `Sync.DispatchPosts` | chrome-pp-extension/content.js:19-30 | while `ignoreNextEvent` is set, the listeners post nothing; otherwise each listener for the event posts one `{type, time}` to its own port, with the event's type and the video's current time |
| `Sync.Attach` | chrome-pp-extension/content.js:17-35 | `addEventListeners(port)` fills the three slots with new play, pause and seeked closures bound to `port`, and leaves the flag, video and posts alone |
| `Sync.AttachFresh` | chrome-pp-extension/content.js:17-35 | in a state whose listeners all predate the next closure, the three new closures are not yet on the video, so all three are appended in order after the old listeners, and the state stays fresh and duplicate-free |
| `Sync.AttachRegisters` | chrome-pp-extension/content.js:32-34 | after `addEventListeners`, the video's listeners are the old ones plus the three slot listeners |
| `Sync.Detach` | chrome-pp-extension/content.js:41-51 | `removeEventListeners` sets every slot to null and removes exactly the slot listeners from the video, leaving flag, video, posts and pending work alone |
| `Sync.WithoutAppended` | chrome-pp-extension/content.js:42-44 | removing three distinct appended listeners in the order they were added leaves the list as it was before them |
| `Sync.DetachAppended` | chrome-pp-extension/content.js:41-51 | removing the slot listeners of a state whose slots were appended after a list leaves that list |
| `Sync.DetachAfterAttach` | chrome-pp-extension/content.js:17-51 | `removeEventListeners` right after `addEventListeners` leaves the video with exactly the listeners it had before |
| `Sync.Handle` | chrome-pp-extension/content.js:59-89 | `play`/`pause`/`seek` set the flag without posting or touching listeners; with a time the video rejects nothing else changes (the setter throws); otherwise `currentTime := time`, `pause` leaves the video paused, `play` leaves it playing, `seek` keeps the play state, `pause`/`seek` add a timer and `play` only a pending promise; `exit`/`error` detach and pause; any other type changes nothing |
| `Sync.Step` | chrome-pp-extension/content.js:19-89 | the flag goes from set to clear only when a pending timer fires, and from clear to set only on an inbound play, pause or seek; only local events post, and never while the flag is set |
| `Sync.SuppressedUntilTimer` | chrome-pp-extension/content.js:19-77 | once the flag is set, any run without a timer firing keeps it set and posts nothing |
| `Sync.PlayHoldsUntilResolved` | chrome-pp-extension/content.js:61-66 | the reset for an inbound `play` is scheduled only after its promise resolves: with no timer pending and nothing scheduling one, the flag stays set and nothing is posted |
| `Sync.BadTimeSuppressesForGood` | chrome-pp-extension/content.js:61-77 | a `play`, `pause` or `seek` whose time the video rejects sets the flag and schedules no reset; with none pending and none scheduled later, the flag stays set and no local event is ever reported |
| `Sync.DetachedIsSilent` | chrome-pp-extension/content.js:41-51 | with no listener on the video and no new port, no run posts anything |
| `Sync.DetachWired` | chrome-pp-extension/content.js:41-51 | detaching an engine wired by one `addEventListeners` leaves the video with no listener |
| `Sync.ExitSilences` | chrome-pp-extension/content.js:79-87 | for an engine wired by one `addEventListeners`, after `exit` or `error` the video has no listener and nothing is posted until a port is connected again |
| `Sync.RewireLeaks` | chrome-pp-extension/content.js:17-51 | two `addEventListeners` calls without a removal between them, then `removeEventListeners`, leave the three closures of the first call on the video |
| `Sync.StepKeepsSound` | chrome-pp-extension/content.js:17-89 | every input keeps listener identities fresh and the video's listener list free of duplicates |
| `Sync.RunKeepsSound` | chrome-pp-extension/content.js:17-89 | every state a run reaches from a sound state is sound |
| `Sync.InitialSound` | chrome-pp-extension/content.js:1-7 | the script starts sound |
| `Sync.ReachableCallsOnce` | chrome-pp-extension/content.js:17-89 | in every state reachable from the start, an event calls each listener at most once |
| `Sync.ConnectWiresOnce` | chrome-pp-extension/content.js:17-35 | connecting a port to an engine with no listeners leaves exactly the three slot listeners, all bound to that port |
| `Sync.WiredReportsOnce` | chrome-pp-extension/content.js:19-34 | in a singly wired engine with the flag clear, each local event posts exactly one message, of the event's type and carrying the current time |
| `Sync.LocalSeekIsReported` | chrome-pp-extension/content.js:27-29 | a local seek to `t` in a singly wired engine with the flag clear posts exactly one `{type:"seek", time:t}`, to the seeked listener's port |
| `Sync.HandlersOfSlots` | chrome-pp-extension/content.js:32-34 | with one play, one pause and one seeked listener registered, each event calls exactly the listener for its type |
| `Sync.RemotePauseIsNotEchoed` | chrome-pp-extension/content.js:68-73 | a remote `{type:"pause", time:12}` followed by the local pause event posts nothing and leaves the video paused at 12 |
| `Sync.TimersStack` | chrome-pp-extension/content.js:74-78 | after two inbound seeks, the first timer to fire clears the flag while the second is still pending |
| `Sync.Engine.constructor` | chrome-pp-extension/content.js:1-7 | the script starts with the flag clear, all slots null, no listener and nothing posted |
| `Sync.Engine.AddEventListeners` | chrome-pp-extension/content.js:17-35 | updates the slots and the video's listener list exactly as `Attach` says |
| `Sync.Engine.RemoveEventListeners` | chrome-pp-extension/content.js:41-51 | updates the slots and the video's listener list exactly as `Detach` says |
| `Sync.Engine.OnMediaEvent` | chrome-pp-extension/content.js:19-30 | running each registered listener in turn appends exactly what `Step` gives for a local event |
| `Sync.Engine.HandleBackgroundMessage` | chrome-pp-extension/content.js:59-89 | sets the flag before assigning `currentTime` and moving the video, and stops there when the time is rejected; the new state is exactly `Handle` |
| `Sync.Engine.OnVideoChanged` | chrome-pp-extension/content.js:19-30 | playback or the user moving the video changes only `currentTime` and `paused`, which the listeners read when they run; the new state is exactly `Step` |
| `Sync.Engine.OnPlayResolved` | chrome-pp-extension/content.js:64-66 | a resolved play promise schedules its timer |
| `Sync.Engine.OnPlayRejected` | chrome-pp-extension/content.js:64-66 | a rejected play promise schedules nothing, so the flag is not cleared on its behalf |
| `Sync.Engine.OnTimer` | chrome-pp-extension/content.js:65-77 | a firing timer clears the flag and retires that timer |

## Left out

- `chrome-pp-extension/background.js` and `chrome-pp-extension/popup.js`: WebSocket, tab and port plumbing and UI wiring. They hold no logic the core depends on. The envelope shapes they send are reflected in `Envelope.Request` and `Envelope.Reply`.
- `Bun.serve`, the HTTP upgrade in `fetch`, and every `console.log`/`console.error` (`index.ts:8-14,21,33,38,49,51,55,59,72`): transport and logging.
- `JSON.parse` and `JSON.stringify`: text is not modelled. A message that fails to parse (which throws at `index.ts:17`) is not modelled. A `roomId` that is absent or not a string is not modelled; `roomId` is a string and "falsy" means empty.
- NaN is not modelled among falsy values, because JSON cannot carry it.
- `alert(message.message)` on `error` (`content.js:86`): a UI call. The `error` branch is otherwise the same as `exit`.
- `document.querySelector("video")`, the runtime message listener and the port setup, including the port's `onDisconnect` handler (`content.js:99-141`): DOM and extension glue. The model assumes a video element exists; the source would throw on a null `activeVideo`.
- Real time and the 100 ms delay: a timer is a pending counter that fires when the environment says so. The order in which pending timers fire is immaterial, because each one does the same thing.
- The video's own reaction to `play()` and to assigning `currentTime`: the browser fires `play`, `pause` and `seeked` events later, as separate tasks. Here these are `Local` inputs, which may come in any order. Whether `play()` leaves the video paused after its promise rejects is not modelled.
- `Sync.Engine.OnPlayResolved`, `Sync.Engine.OnPlayRejected`: the promises are assumed to settle oldest first. Settlement order does not matter, because every promise's continuation is the same.
