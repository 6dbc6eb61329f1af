# Voice-controlled playlist: a Dafny model of the `App` component

This project models the core of the voice audio player client, which is the `App` component in
`client/components/App.jsx`. The component keeps a playlist, a current track and a playing flag. It
holds one realtime data channel to a speech model. When the session is created, it sends the model
a registry of four tools (`add_track`, `remove_track`, `play_track`, `pause_track`). The model's
`response.done` events then carry function calls, which are dispatched to playlist actions. Adding
or removing a track sends a `response.create` narration request back to the model.

Layout, one module per file:

- `wrappers.dfy` (`Wrappers`): `Option`.
- `js_values.dfy` (`JsValues`): the JavaScript primitive values that serve as ids and fields. It
  defines their truthiness, `String(v)` and property lookup on a parsed object. `===` is structural
  equality on these values, so the number `0` and the string `"0"` differ.
- `playlist.dfy` (`Playlist`): the track record and the pure updaters passed to `setPlaylist`. These
  are `some` plus spread (add), `filter` (remove) and `find` (play lookup).
- `tool_schema.dfy` (`ToolSchema`): the `sessionUpdate` tool registry as a constant.
- `protocol.dfy` (`Protocol`): outbound and inbound data-channel events, already parsed.
- `app_spec.dfy` (`AppSpec`): the component state as one value. Each handler is a function from the
  old state to the new one. Handlers that can throw return an `Outcome` with a `threw` flag.
- `app_properties.dfy` (`AppProperties`): the lemmas about those functions.
- `app.dfy` (`AppComponent`): class `App`. Its fields are the React state and refs. Its methods
  update them the way the handlers do. Each method is proved to produce exactly the state given by
  its `AppSpec` function, and to keep the invariant.

I/O is reduced to data:

- The data channel, the peer connection and the `<audio>` element become booleans that say whether
  each is present.
- Every message written to the channel is appended to `outbox`.
- `startSession` takes a parameter saying how far it got: the token fetch failed, microphone or
  channel setup failed, the offer/answer exchange failed, or it connected. The model records the
  state each stage leaves behind. For example, a failed SDP exchange still leaves a data channel in
  place (App.jsx:216-217).

## Behaviour as written

The model follows the code in these places, including where a design reading would differ:

- Voice `remove_track` builds the payload `{track_id}` (App.jsx:176), but the filter compares against
  `payload.id` (App.jsx:124), which is `undefined`. So it removes only tracks whose id is `undefined`
  and keeps every other track. The narration is still sent. See `AppProperties.RemoveTrackCall` and
  `AppProperties.AddThenVoiceRemoveKeepsTrack`.
- The initial track has the numeric id `0` (App.jsx:80). Voice play looks tracks up by
  `String(track_id)` (App.jsx:135), which is always a string, so the initial track can be played by
  voice only by resuming it. A `track_id` of `0` or `""` is falsy, so it takes the resume branch.
- Malformed function-call arguments make `JSON.parse` throw (App.jsx:161). Arguments that parse to
  `null` throw too, but only when the dispatcher reads `params.track_id` (App.jsx:168, 176, 180).
  So `null` arguments make `add_track`, `remove_track` and `play_track` throw, while `pause_track`
  still pauses and an unknown name still does nothing. Nothing catches the exception, so the rest of
  that `response.done` batch is not applied (`ApplyCallsThrows`, `ApplyCallsAbortsAt`). A
  `response.done` event without a `response` object throws in the same way.
- The `required` lists of the tool registry are never checked. A call that omits a field passes
  `undefined` on to the playlist. A track added without a `track_id` gets the id `undefined`.
- `isSessionActive` becomes true only when the channel's "open" listener runs (App.jsx:292-294), and
  `startSession` does not set it.
- `currentTrack` is not tied to the playlist. A removed track can still be resumed.

## Model

| member | source | states |
|---|---|---|
| `JsValues.Truthy` | client/components/App.jsx:134-141 | exactly `undefined`, `null`, `false`, `0` and `""` are falsy |
| `JsValues.DecimalString` | client/components/App.jsx:135 | the numeral `String(n)` prints for a whole number n below 10^21 is non-empty, all digits, and has no leading zero |
| `JsValues.ParseDecimalString` | client/components/App.jsx:135 | reading the numeral of `n` back gives `n` (round trip) |
| `JsValues.ToJsString` | client/components/App.jsx:135 | `String(v)` of a string is the string itself; of a number it is a minus sign exactly when the number is negative, followed by digits, which read back as the magnitude of the number (`NumberStringValue`) |
| `JsValues.NumberStringValue` | client/components/App.jsx:135 | the digits of `String(n)` after the sign read back as the magnitude of `n`, so the string names the number's value |
| `JsValues.NumberStringInjective` | client/components/App.jsx:135 | two numbers with the same `String(...)` form are equal, so a numeric `track_id` names exactly one string id |
| `Playlist.HasId` | client/components/App.jsx:112 | `some(t => t.id === id)` is true exactly when some index holds that id |
| `Playlist.AddTrack` | client/components/App.jsx:111-114 | a taken id leaves the playlist identical; a new id appends the track at the end with earlier tracks unchanged; unique ids stay unique |
| `Playlist.Without` | client/components/App.jsx:124 | the filter keeps exactly the tracks whose id differs and never grows the playlist |
| `Playlist.WithoutAppend` | client/components/App.jsx:124 | filtering distributes over concatenation, so kept tracks keep their original order |
| `Playlist.WithoutAbsent` | client/components/App.jsx:124 | removing an id that is not present leaves the playlist identical |
| `Playlist.WithoutUnique` | client/components/App.jsx:124 | removing keeps ids unique |
| `Playlist.WithoutPresent` | client/components/App.jsx:124 | with unique ids, removing a present id shortens the playlist by exactly one and the id is gone |
| `Playlist.Find` | client/components/App.jsx:135 | `find` returns a track exactly when one has the id, and the track it returns is in the playlist with that id |
| `Playlist.FindFirst` | client/components/App.jsx:135 | `find` returns the first track with the id |
| `ToolSchema.SessionToolsWellFormed` | client/components/App.jsx:5-69 | the registry declares the four tools under distinct names with tool choice "auto", and every required argument is a declared property |
| `AppSpec.Initial` | client/components/App.jsx:72-90 | the mounted state has no session, no channel, no peer connection, no configured tools, an empty outbox, the one initial track, nothing selected and nothing playing, and has an audio element exactly when one is mounted; it satisfies the invariant |
| `AppSpec.SendClientEvent` | client/components/App.jsx:192-199 | only the outbox can change; the event is appended when a channel exists and silently dropped otherwise |
| `AppSpec.PlayTrack` | client/components/App.jsx:91-99 | with an audio element the track becomes current and playing; only those two fields change; without one nothing changes |
| `AppSpec.PauseTrack` | client/components/App.jsx:100-106 | with an audio element the playing flag is cleared and nothing else changes; without one nothing changes |
| `AppSpec.AddedNarration` | client/components/App.jsx:115-120 | the "add" narration is the template `Track "<title>" by <artist> was added to the playlist.` with `String(title)` and `String(artist)` in their places |
| `AppSpec.TrackOf` | client/components/App.jsx:113 | the appended copy carries the payload's id, title, artist and url and no `onRemove` callback |
| `AppSpec.PlayRequest` | client/components/App.jsx:133-146 | only the selection and the playing flag can change; any change needs an audio element and leaves a track playing; with a truthy id the played track is in the playlist with id `String(id)`; with a falsy id the selection is kept |
| `AppSpec.UpdatePlaylist` | client/components/App.jsx:108-155 | the session flags never change and the outbox only grows, by one narration exactly for "add" and "remove" (given a channel); only those two change the playlist, and they keep the selection; an unknown action changes nothing |
| `AppSpec.AddPayload` | client/components/App.jsx:166-171 | the "add" payload carries `track_id` as its id and copies title, artist and url |
| `AppSpec.ToolAction` | client/components/App.jsx:165-189 | the switch ignores exactly the names outside the four tools; it reads `params.track_id` (and so throws on `null`) exactly for add, remove and play; the "remove" payload has no `id` field |
| `AppSpec.HandleFunctionCall` | client/components/App.jsx:157-190 | a call throws exactly on unparsable arguments or on `null` arguments to add, remove or play, and then changes nothing |
| `AppSpec.FunctionCalls` | client/components/App.jsx:279-285 | the selected items are exactly the `function_call` outputs, never more than the outputs |
| `AppSpec.ForEachOutput` | client/components/App.jsx:280-284 | the forEach throws exactly when one of the function-call items throws |
| `AppSpec.ConfigureTools` | client/components/App.jsx:273-276 | the tools are configured afterwards exactly when they were or the event is `session.created`; the registry is appended exactly when that event arrives unconfigured with a channel; nothing else changes |
| `AppSpec.HandleMessage` | client/components/App.jsx:269-286 | without a channel nothing happens; an unparsable message throws with no change; other event kinds change nothing; only unparsable messages and `response.done` can throw |
| `AppSpec.StartSession` | client/components/App.jsx:201-244 | starting never touches the playlist, the selection, the outbox, the tool flag or the active flag; a failed token fetch changes nothing; an audio element exists after any later stage; a channel exists afterwards exactly when one existed or negotiation was reached; a peer connection exists afterwards exactly when one existed or the session connected |
| `AppSpec.ChannelOpened` | client/components/App.jsx:292-294 | only the active flag changes; it becomes true when a channel exists |
| `AppSpec.RemoveClicked` | client/components/App.jsx:84-85 | the click throws exactly on a track without `onRemove`, and then changes nothing; otherwise only the playlist changes, to the order-keeping filter that keeps exactly the tracks whose id differs |
| `AppSpec.StopSession` | client/components/App.jsx:246-265 | the session, the channel, the peer connection and the tool flag are cleared; the playlist, selection, playing flag, outbox and audio element are left alone |
| `AppProperties.AddTrackCall` | client/components/App.jsx:110-121 | voice add appends the new track when its id is new and leaves the playlist identical when the id is taken; one narration naming the title and artist is sent (given a channel); nothing else changes |
| `AppProperties.RemoveTrackCall` | client/components/App.jsx:123-131 | voice remove filters by `undefined`: every track with a defined id is kept, and the playlist is unchanged when no id is undefined; the narration is still sent |
| `AppProperties.PlayTrackCallWithId` | client/components/App.jsx:133-140 | play with a truthy id: if a track with id `String(id)` exists and there is an audio element, that track becomes current and playing; otherwise the whole state is unchanged |
| `AppProperties.PlayByIdNeverSelectsNumericId` | client/components/App.jsx:135 | play by id changes nothing while every track id is a number, as in the initial playlist |
| `AppProperties.PlayTrackCallWithoutId` | client/components/App.jsx:141-145 | play without a truthy id resumes the current track (given an audio element); with no current track nothing changes |
| `AppProperties.PauseTrackCall` | client/components/App.jsx:183-185 | voice pause only clears the playing flag, and only with an audio element, also when the arguments are `null` |
| `AppProperties.NarrationPerCall` | client/components/App.jsx:157-190 | add and remove append exactly one `response.create` (given a channel); play, pause and unknown names append none; the outbox only grows; a call that throws (unparsable arguments, or `null` ones for add, remove or play) changes nothing |
| `AppProperties.UnknownToolIsNoOp` | client/components/App.jsx:165-189 | a tool name outside the registry changes nothing and does not throw, even with `null` arguments |
| `AppProperties.UpdateKeepsSession` | client/components/App.jsx:108-155 | playlist actions never touch the session flags and never send the tool registry |
| `AppProperties.PlayRequestKeepsInv` | client/components/App.jsx:133-146 | the play case keeps the invariant |
| `AppProperties.UpdateKeepsInv` | client/components/App.jsx:108-155 | every playlist action keeps "playing implies a current track" and unique ids |
| `AppProperties.CallKeepsSession` | client/components/App.jsx:157-190 | a function call never touches the session flags and never sends the tool registry |
| `AppProperties.CallKeepsInv` | client/components/App.jsx:157-190 | a function call keeps the invariant |
| `AppProperties.ApplyCallsAppend` | client/components/App.jsx:280-284 | applying two batches one after the other is applying their concatenation |
| `AppProperties.FunctionCallsAppend` | client/components/App.jsx:280-284 | selecting the function calls of two arrays joined is selecting those of each, in order |
| `AppProperties.FunctionCallsSingle` | client/components/App.jsx:281 | a single item is selected exactly when its type is `function_call` |
| `AppProperties.ForEachOutputIsSequential` | client/components/App.jsx:279-285 | the forEach gives the same result as applying exactly the function-call outputs, in array order, one after another |
| `AppProperties.ForEachOutputPrefix` | client/components/App.jsx:280-284 | the forEach over one more item is the forEach so far followed by that item, if it is a function call and nothing threw |
| `AppProperties.ForEachOutputStopsAtThrow` | client/components/App.jsx:280-284 | once an item throws, no later item is visited |
| `AppProperties.ApplyCallsThrows` | client/components/App.jsx:161-180 | a batch throws exactly when one of its calls throws |
| `AppProperties.ApplyCallsAbortsAt` | client/components/App.jsx:280-284 | at the first call that throws the batch stops, in the state the calls before it produced |
| `AppProperties.ApplyCallsKeepsSessionAndInv` | client/components/App.jsx:279-285 | a batch keeps the session flags and the number of registry messages, only grows the outbox, and keeps the invariant |
| `AppProperties.SessionCreated` | client/components/App.jsx:273-276 | `session.created` sends the registry and sets the flag when tools are not yet configured, and changes nothing when they are |
| `AppProperties.ResponseDone` | client/components/App.jsx:279-285 | a `response.done` with an output array produces the sequential application of its function calls; with no channel there is no listener and nothing changes |
| `AppProperties.MessageKeepsInv` | client/components/App.jsx:269-286 | handling any message keeps the invariant |
| `AppProperties.StopSessionIdempotent` | client/components/App.jsx:246-265 | stopping twice gives the same state as stopping once |
| `AppProperties.StepKeepsInv` | client/components/App.jsx:91-106 | every input (start, open, stop, message, user play, pause or remove) keeps the invariant |
| `AppProperties.RunKeepsInv` | client/components/App.jsx:91-106 | any sequence of inputs keeps the invariant |
| `AppProperties.ReachableStatesKeepInv` | client/components/App.jsx:78-106 | in every state reachable from mount, playing implies a current track and playlist ids are unique |
| `AppProperties.ConfigureKeepsSchemaBudget` | client/components/App.jsx:273-276 | the configuration step spends the one allowed registry send exactly when it sends it |
| `AppProperties.MessageKeepsSchemaBudget` | client/components/App.jsx:269-286 | a message never raises "registry messages sent + sends still allowed", and the outbox only grows |
| `AppProperties.StepKeepsSchemaBudget` | client/components/App.jsx:246-286 | every input except stopping keeps that budget |
| `AppProperties.SchemaBudgetInvariant` | client/components/App.jsx:264-276 | a sequence of inputs without a stop keeps that budget |
| `AppProperties.SchemaSentAtMostOnce` | client/components/App.jsx:264-276 | between two stops the tool registry is sent at most once, and not at all once the tools are configured; the outbox only grows |
| `AppProperties.AddThenVoiceRemoveKeepsTrack` | client/components/App.jsx:166-177 | a batch that adds "a1" and then removes "a1" by voice ends with "a1" still in the playlist and two narrations sent |
| `AppComponent.App.constructor` | client/components/App.jsx:72-90 | the new component is in the initial state and satisfies the invariant |
| `AppComponent.App.SendClientEvent` | client/components/App.jsx:192-199 | the fields become `AppSpec.SendClientEvent` of the old state; the invariant holds |
| `AppComponent.App.PlayTrack` | client/components/App.jsx:91-99 | the fields become `AppSpec.PlayTrack` of the old state; the invariant holds |
| `AppComponent.App.PauseTrack` | client/components/App.jsx:100-106 | the fields become `AppSpec.PauseTrack` of the old state; the invariant holds |
| `AppComponent.App.UpdatePlaylist` | client/components/App.jsx:108-155 | the fields become `AppSpec.UpdatePlaylist` of the old state; the invariant holds |
| `AppComponent.App.PlayRequested` | client/components/App.jsx:133-146 | the fields become `AppSpec.PlayRequest` of the old state; the invariant holds |
| `AppComponent.App.HandleFunctionCall` | client/components/App.jsx:157-190 | the fields and the thrown flag are those of `AppSpec.HandleFunctionCall`; the invariant holds |
| `AppComponent.App.HandleOutputs` | client/components/App.jsx:280-284 | the loop over outputs leaves the fields and the thrown flag that `AppSpec.ForEachOutput` gives; the invariant holds |
| `AppComponent.App.HandleMessage` | client/components/App.jsx:269-286 | the fields and the thrown flag are those of `AppSpec.HandleMessage`; the invariant holds |
| `AppComponent.App.StartSession` | client/components/App.jsx:201-244 | the fields become `AppSpec.StartSession` of the old state for the stage reached |
| `AppComponent.App.OnChannelOpen` | client/components/App.jsx:292-294 | the fields become `AppSpec.ChannelOpened` of the old state |
| `AppComponent.App.StopSession` | client/components/App.jsx:246-265 | the fields become `AppSpec.StopSession` of the old state |
| `AppComponent.App.OnRemoveClicked` | client/components/App.jsx:84-85 | the initial track's `onRemove` filters its id out (keeping unique ids); on tracks without the callback the call throws and nothing changes |

## Left out

- Network and media I/O in `startSession`: the token fetch, `RTCPeerConnection`, `getUserMedia`, the SDP offer/answer and the remote endpoint. Only the state each failure point leaves behind is modelled, through the stage parameter.
- Closing the channel, stopping the media tracks and closing the peer connection in `stopSession`. These are I/O; only the resulting state is modelled.
- Audio playback: setting `src`, `play()` and `pause()` on the audio element. The element is reduced to a "present" flag.
- `JSON.parse` and `JSON.stringify`. Inbound messages and call arguments are already-parsed datatypes, and a parse failure is a separate constructor. Outbound events are kept as values.
- JsValues.ToJsString: numbers are unbounded integers, while JavaScript numbers are doubles. The model agrees with the source only for whole numbers of magnitude below 2^53: larger ones lose precision in `JSON.parse`, and from 10^21 on `String(n)` switches to exponent notation.
- JSON argument values that are fractional numbers, arrays or nested objects. Ids and fields are integers, strings, booleans, `null` or `undefined`.
- Sending on a channel that exists but is not open yet or is already closed. The browser would throw there. The model treats every send on an existing channel as delivered.
- React re-rendering and stale closures. Updates are applied in order, as if each `set...` took effect at once. In the source, the message listener captures `playlist` and `currentTrack` when it is registered, and it is registered again only when `dataChannel` or `toolsConfigured` changes (App.jsx:304). So the lookup at App.jsx:135 never finds a track that voice added after `session.created`, and the resume at App.jsx:141-142 sees the selection from that time. The model reads the current state instead: adding "a1" and then playing "a1" in one batch plays "a1".
- Registering and removing listeners in the effect. This is modelled only by its result: without a data channel a message changes nothing.
- The channel's "error" listener and every `console.log`/`console.warn`/`console.error`. They only write diagnostics. The `tools.configure` check in `sendClientEvent` is also logging only.
- `client/components/AudioPlayer.jsx` (rendering and button wiring) and `client/components/Cart.jsx`. The cart's tool logic is not part of this model.
