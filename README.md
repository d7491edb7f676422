# Collaborative editor session core in Dafny

This project models the parts of a browser-based collaborative editor that the
repository implements itself. The CRDT document, the peer transport and the rich-text
editor come from libraries and are treated as opaque.

- **Reconnect state machine** (`src/hooks/useYjs.ts`). The `useYjs` effect constructs a
  transport provider and counts `connection-error` events in `retries`, which is capped at
  `maxRetries = 3`. Each retry schedules `connect` again after `1000 * retries` ms; once
  the cap is reached, the error `"Failed to connect after multiple attempts"` is set
  instead. `synced` and `connection-close` toggle `isSynced`. A throwing provider
  constructor records its message. The cleanup destroys one provider.
  `reconnect.dfy` holds the pure state machine (`Step`, `Replay`) and the lemmas about
  event sequences. `use_yjs.dfy` holds class `Hook`, whose methods are the effect, the
  event handlers, the retry timer and the cleanup. Each handler's postcondition ties the
  new state to `Step` of the old one.
- **Presence store and derived views** (`src/lib/awareness.ts`, `src/components/Editor.tsx`,
  `src/App.tsx`). `presence.dfy` models the transport's awareness object as class
  `Awareness`, holding the client id, the states map and the subscribed `change`
  listeners. The states map is a JavaScript `Map`, so it is modelled with its key order
  (`StateMap`), because the derived views depend on that order.
  `awareness_setup.dfy` models `setupAwareness`. `editor.dfy` models the collaborator
  list, the remote cursor map (a loop, `BuildCursorPositions`), the local cursor publish,
  the binding guard and the drawn cursors. `app.dfy` models screen selection and the
  `currentUser` lookup.
- **Palette colour** (`src/utils/randomColor.ts`), in `palette.dfy`. `Math.random()` is
  a parameter in `[0, 1)`.

Each `Math.random()` draw is a parameter, and so is the outcome of the provider
constructor. The pointer coordinates and the element's origin are parameters too. Events
from the transport, timers and the DOM are method calls made by the environment.

Behaviours of the code worth knowing:

- The terminal error is set on the fourth `connection-error` of a run. The first three
  schedule retries at 1000, 2000 and 3000 ms (`Reconnect.FourErrorsFromStart`). `synced`
  never resets `retries`.
- A peer state without a `user` field makes the collaborator derivation throw
  (`EditorView.IncompletePeerBreaksCollaborators`). The `currentUser`
  lookup throws when such a state comes before the first match.
- The cleanup does not cancel a scheduled retry. It destroys only the last provider of
  the run and unsubscribes nothing (`YjsHook.Hook.Teardown`,
  `YjsHook.RetryOutlivesTeardown`).
- `connectionError` and `isSynced` are hook state. A new effect run does not reset them;
  only `retries` and the provider variable start afresh (`Reconnect.Restart`).

## Model

| member | source | states |
|---|---|---|
| `Palette.ColorIndex` | src/utils/randomColor.ts:14 | for a draw in [0,1), `floor(random * 10)` is a valid palette index |
| `Palette.GetRandomColor` | src/utils/randomColor.ts:1-15 | the chosen colour is always one of the 10 palette entries |
| `Palette.EveryColorReachable` | src/utils/randomColor.ts:14 | every palette entry is chosen by some draw of `Math.random()` |
| `Palette.ColorsDistinct` | src/utils/randomColor.ts:3-12 | the 10 palette entries are pairwise distinct |
| `Palette.ColorsAreHex` | src/utils/randomColor.ts:3-12 | every palette entry is `#` followed by six hex digits |
| `Presence.WithField` | src/lib/awareness.ts:8 | `setLocalStateField('user', …)` sets the `user` field and `setLocalStateField('cursor', …)` the `cursor` field (also src/components/Editor.tsx:71); the other field is kept |
| `Presence.Publish` | src/lib/awareness.ts:8 | `setLocalStateField` keeps the key order and every other client's state, and replaces only the named field of the local state |
| `Presence.Awareness.constructor` | src/hooks/useYjs.ts:21 | a new awareness object holds only the local client, with an empty state, and has no listeners |
| `Presence.Awareness.GetStates` | src/lib/awareness.ts:15 | `getStates()` is a well-formed map that contains the local client |
| `Presence.Awareness.SetLocalStateField` | src/components/Editor.tsx:71 | the local state gets the field; the local client stays first in map order |
| `Presence.Awareness.On` | src/lib/awareness.ts:19 | `on('change', l)` adds exactly `l` to the subscribed listeners |
| `Presence.Awareness.Off` | src/lib/awareness.ts:23 | `off('change', l)` removes exactly `l` |
| `AwarenessSetup.LocalUser` | src/lib/awareness.ts:8-12 | the published user has `id = clientID`, `name = username` and a palette colour |
| `AwarenessSetup.UpdateUsers` | src/lib/awareness.ts:14-17 | the users view has exactly the keys, values and order of `getStates()` |
| `AwarenessSetup.SetupAwareness` | src/lib/awareness.ts:3-25 | publishes the local user, subscribes `updateUsers` and returns the first snapshot, which already holds the local user |
| `AwarenessSetup.CleanupAwareness` | src/lib/awareness.ts:22-24 | the cleanup unsubscribes `updateUsers` and nothing else |
| `AwarenessSetup.PublishUserTouchesOnlyLocal` | src/lib/awareness.ts:8 | the setup changes only the local client's `user` field |
| `Reconnect.Step` | src/hooks/useYjs.ts:39-49 | `synced` and `connection-close` only set or clear `isSynced`; the catch records the thrown message and schedules nothing (lines 63-65); no event lowers `retries`, cancels a delay or clears the error |
| `Reconnect.Replay` | src/hooks/useYjs.ts:39-49 | over any sequence of events of one run, `retries` and the schedule only grow and a recorded error stays |
| `Reconnect.Restart` | src/hooks/useYjs.ts:14-17 | a new effect run starts `retries` at 0 with nothing scheduled and keeps `isSynced` and `connectionError` |
| `Reconnect.StartIsBounded` | src/hooks/useYjs.ts:9-16 | initially `retries = 0` and no delays are scheduled; `isSynced` is false and `connectionError` is null |
| `Reconnect.ErrorStep` | src/hooks/useYjs.ts:41-49 | below the cap an error adds exactly one retry, with delay `1000 * retries`, and leaves the error unset; at the cap it sets the terminal message and schedules nothing |
| `Reconnect.ReplayBounded` | src/hooks/useYjs.ts:43-45 | for every event sequence, `retries <= 3` and the delays scheduled so far are 1000, 2000, ... |
| `Reconnect.RetriesCountErrors` | src/hooks/useYjs.ts:43-44 | `retries` equals the number of error events, capped at 3; no other event resets it |
| `Reconnect.TerminalErrorAfterRetriesRunOut` | src/hooks/useYjs.ts:43-48 | without constructor failures, the terminal error is set iff more errors arrive than retries remain |
| `Reconnect.SyncedFollowsLastSignal` | src/hooks/useYjs.ts:39-40 | `isSynced` is whatever the last `synced` or `connection-close` event says |
| `Reconnect.FourErrorsFromStart` | src/hooks/useYjs.ts:41-49 | three errors give delays 1000, 2000, 3000 and no error; the fourth sets the terminal error |
| `YjsHook.MaxConns` | src/hooks/useYjs.ts:27 | the `maxConns` passed to the provider lies in [20, 34] |
| `YjsHook.EveryMaxConnsReachable` | src/hooks/useYjs.ts:27 | every value in [20, 34] is chosen by some draw |
| `YjsHook.Provider.constructor` | src/hooks/useYjs.ts:21-37 | a new provider has the room and connection limit it was given and a fresh awareness object for the document's client id |
| `YjsHook.Provider.Destroy` | src/hooks/useYjs.ts:71 | `destroy()` marks the provider destroyed |
| `YjsHook.Hook.constructor` | src/hooks/useYjs.ts:8-12 | the hook starts with no provider, an empty users map, `isSynced` false and no error |
| `YjsHook.Hook.Connect` | src/hooks/useYjs.ts:19-66 | `connect` either records the constructor's error and leaves everything else alone, or appends a fresh provider that becomes `yProvider` and `provider`, and sets the users view to the local client alone, with its user |
| `YjsHook.Hook.RunEffect` | src/hooks/useYjs.ts:14-17 | the effect run starts with `retries = 0`, no provider and no schedule, then calls `connect` once: on success the provider is fresh, subscribed with `updateUsers`, and the users view holds the local user alone; on a throw `users` and `provider` are unchanged |
| `YjsHook.Hook.OnSynced` | src/hooks/useYjs.ts:39 | the `synced` handler is `Step(Synced)` |
| `YjsHook.Hook.OnConnectionClose` | src/hooks/useYjs.ts:40 | the `connection-close` handler is `Step(ConnectionClose)` |
| `YjsHook.Hook.OnConnectionError` | src/hooks/useYjs.ts:41-49 | the `connection-error` handler is `Step(ConnectionError)` and keeps the bound and the backoff schedule |
| `YjsHook.Hook.OnRetryTimer` | src/hooks/useYjs.ts:45 | a scheduled `connect` fires in turn and, like `connect`, appends a fresh provider and sets the users view to the local user while keeping `isSynced`, `connectionError` and the schedule, or records the thrown message and changes nothing else; it fires even after the cleanup |
| `YjsHook.Hook.OnAwarenessChange` | src/lib/awareness.ts:14-19 | a `change` event refreshes the users view iff `updateUsers` is still subscribed |
| `YjsHook.Hook.Teardown` | src/hooks/useYjs.ts:70-72 | the cleanup destroys only the last provider constructed; earlier providers, listeners and the timer schedule are untouched |
| `EditorView.CollaboratorsOf` | src/components/Editor.tsx:24-26 | a successful derivation lists at most one user per state and never the current user's id |
| `EditorView.CollaboratorsThrowIff` | src/components/Editor.tsx:24-26 | the collaborator derivation throws iff some state lacks `user` |
| `EditorView.CollaboratorsMembers` | src/components/Editor.tsx:24-26 | when it succeeds, a user is in the list iff some state carries it and its id differs from the current user's |
| `EditorView.IncompletePeerBreaksCollaborators` | src/components/Editor.tsx:24-26 | two states, one without `user`: the map has 2 entries and the derivation throws |
| `EditorView.CursorsOf` | src/components/Editor.tsx:84-87 | the cursor map never holds the observer's own id, holds only clients of the states, and gives each the cursor it published |
| `EditorView.BuildCursorPositions` | src/components/Editor.tsx:80-91 | the loop rebuilds, from empty, the map from every client other than `clientID` that has a cursor to that cursor |
| `EditorView.PublishedCursorSeenByOthers` | src/components/Editor.tsx:66-88 | after a client publishes a cursor, every other client's cursor map holds exactly that cursor for it |
| `EditorView.DepartedClientHasNoCursor` | src/components/Editor.tsx:82-90 | a removed client and the observer itself never have an entry |
| `EditorView.PointerOffset` | src/components/Editor.tsx:66-70 | the published cursor plus the element's origin is the pointer position |
| `EditorView.PointerOffsetIsRelative` | src/components/Editor.tsx:66-70 | moving the pointer and the element together publishes the same cursor |
| `EditorView.BindingStep` | src/components/Editor.tsx:42-49 | the binding proceeds iff the editor, the provider and `isSynced === true` are all present; it loads existing content iff the fragment has a first child |
| `EditorView.DrawnCursors` | src/components/Editor.tsx:141-147 | at most one cursor per collaborator is drawn, each at the position recorded for that collaborator's id |
| `EditorView.DrawnCursorsIff` | src/components/Editor.tsx:141-147 | a cursor is drawn for a collaborator iff it has a position, and at that position; no one else gets one |
| `EditorView.Editor.constructor` | src/components/Editor.tsx:17-21 | the component starts with no collaborators and no cursor positions |
| `EditorView.Editor.SyncCollaborators` | src/components/Editor.tsx:23-28 | the effect throws iff some state lacks `user`; otherwise the list holds exactly the other users |
| `EditorView.Editor.SubscribeCursors` | src/components/Editor.tsx:77-93 | with a provider, `handleAwarenessChange` is subscribed and the states are untouched |
| `EditorView.Editor.UnsubscribeCursors` | src/components/Editor.tsx:94-96 | the effect cleanup unsubscribes `handleAwarenessChange` |
| `EditorView.Editor.OnAwarenessChange` | src/components/Editor.tsx:80-91 | while subscribed, a `change` event replaces the cursor map by the one computed from the current states |
| `EditorView.Editor.HandleEditorMouseMove` | src/components/Editor.tsx:62-74 | with an editor and a provider, the local `cursor` becomes the pointer offset and nothing else changes; without an editor, nothing is published |
| `App.HandleLogin` | src/App.tsx:11-13 | after `handleLogin(name)` the user counts as logged in iff `name` is non-empty, and the hook then gets `name` or `anonymous` |
| `App.HookArguments` | src/App.tsx:8-9 | the hook gets the fixed room and the username, or `anonymous` when the username is null or empty |
| `App.FindCurrentUser` | src/App.tsx:19-21 | a found user carries the login name and is the user of one of the states |
| `App.FindCurrentUserIsFirstMatch` | src/App.tsx:19-21 | the lookup returns the user of the first state named `username`; it throws iff a state without `user` comes first; it finds nothing iff every state has a user with another name |
| `App.LocalUserFoundFirst` | src/App.tsx:19-21 | when the local client is first in map order and has published its user, that user is found |
| `App.PeerWithSameNameIsChosen` | src/App.tsx:19-21 | only names are compared, so a peer with the same name that comes earlier in map order is chosen |
| `App.EditorShownAfterSetup` | src/App.tsx:19-41 | with the users view that `connect` leaves (the local client alone, with its user), a provider and a non-empty login name, App renders the Editor for the local user |
| `App.Render` | src/App.tsx:15-42 | the login screen is shown iff there is no username; the Editor only with a provider, for a user of the users view that carries the login name; "Loading user data" iff every state has a user with another name |
| `App.LoginLeavesLoginScreen` | src/App.tsx:11-17 | after `handleLogin(name)` the login screen is left iff `name` is non-empty |
| `App.AppEditorNeverBinds` | src/App.tsx:33-39 | App passes no `isSynced`, so Editor's binding step always returns early |

## Left out

- The WebRTC provider's internals are not modelled: signaling URLs, ICE/STUN servers and peer connections. They are network I/O in a foreign library. Whether the constructor throws is a parameter (`Construction`).
- The CRDT document, `getXmlFragment`, `toDOM`, `provider.binding` and the binding cleanup are foreign calls. Only the binding guard (`BindingStep`) is modelled.
- The TipTap editor, the toolbar, the JSX markup and `UserCursor`'s rendering are UI. Only which cursors are drawn is kept (`DrawnCursors`).
- React's hook lifecycle is reduced to explicit method calls: `useState`, dependency arrays, re-rendering. React discards state updates made after unmount; the model keeps them.
- Handlers and timers left over from an earlier effect run are not modelled. Each `Hook` event method acts on the current run's closure.
- Real timers are not modelled. A scheduled retry is a recorded delay, and the timers fire in the order they were scheduled.
- `Math.random()` is a parameter in [0,1). The model multiplies and floors on reals, so floating-point rounding is not modelled.
- `getBoundingClientRect` and the mouse event are reduced to their numbers. Coordinates are reals, so floating-point subtraction is not modelled.
- `console.error` is output only.
- `LoginModal` is not part of this model.
- Awareness internals are left out: replication between peers, heartbeats and timeouts. `ReceiveRemoteState` and `RemoveRemoteClient` stand for their effect on the local map. The model assumes the local state is created first and never removed.
- The `change` event emitted by the setup's own publish is not modelled. Events reach listeners only through the `OnAwarenessChange` methods, so publishing before subscribing shows only as the order of statements in `SetupAwareness`.
- EditorView.CollaboratorsMembers: states which users the list holds, not their order. The list follows map order because `CollaboratorsOf` recurses over the states in that order.
- App: `ydoc` is always created by the hook, so the model drops it from the Editor condition.
