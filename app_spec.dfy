/**
 * The state of the `App` component (client/components/App.jsx) as one value,
 * and each handler of the component as a function from the state before to
 * the state after. React state updates are applied in the order the handler
 * issues them; the data channel, the peer connection and the `<audio>`
 * element are reduced to whether they are present, and the messages written
 * to the data channel are collected in `outbox`.
 */
module AppSpec {
  import opened Wrappers
  import opened JsValues
  import opened Playlist
  import opened ToolSchema
  import opened Protocol

  datatype AppState = AppState(
    isSessionActive: bool,
    hasDataChannel: bool,
    hasPeerConnection: bool,
    toolsConfigured: bool,
    hasAudioElement: bool,
    playlist: seq<Track>,
    currentTrack: Option<Track>,
    isPlaying: bool,
    outbox: seq<ClientEvent>)

  /**
   * The state after a handler that may throw. A JavaScript exception ends the
   * handler; the updates it issued before throwing remain.
   */
  datatype Outcome = Outcome(state: AppState, threw: bool)

  /**
   * The state at mount. `audioMounted` says whether the hidden `<audio>` element
   * is attached to its ref, which it is once the component has rendered.
   */
  function Initial(audioMounted: bool): (s: AppState)
    ensures Inv(s) && s.playlist == [InitialTrack]
    ensures !s.isSessionActive && !s.hasDataChannel && !s.toolsConfigured && s.outbox == []
    ensures s.currentTrack == None && !s.isPlaying && !s.hasPeerConnection && s.hasAudioElement == audioMounted
  {
    AppState(false, false, false, false, audioMounted, [InitialTrack], None, false, [])
  }

  /**
   * The component invariant: something is selected whenever something plays,
   * and the playlist never holds two tracks with the same id.
   */
  ghost predicate Inv(s: AppState) {
    && (s.isPlaying ==> s.currentTrack.Some?)
    && UniqueIds(s.playlist)
  }

  /** `sendClientEvent`: written to the channel if there is one, silently dropped otherwise. */
  function SendClientEvent(s: AppState, e: ClientEvent): (r: AppState)
    ensures r == s.(outbox := r.outbox)
    ensures r.outbox == s.outbox + (if s.hasDataChannel then [e] else [])
  {
    if s.hasDataChannel then s.(outbox := s.outbox + [e]) else s
  }

  /** `playTrack`: only with an audio element does the track become current and playing. */
  function PlayTrack(s: AppState, t: Track): (r: AppState)
    ensures s.hasAudioElement ==> r.currentTrack == Some(t) && r.isPlaying
    ensures r == s.(currentTrack := r.currentTrack, isPlaying := r.isPlaying)
    ensures !s.hasAudioElement ==> r == s
  {
    if s.hasAudioElement then s.(currentTrack := Some(t), isPlaying := true) else s
  }

  /** `pauseTrack`: only with an audio element is the playing flag cleared. */
  function PauseTrack(s: AppState): (r: AppState)
    ensures s.hasAudioElement ==> !r.isPlaying
    ensures r == s.(isPlaying := r.isPlaying)
    ensures !s.hasAudioElement ==> r == s
  {
    if s.hasAudioElement then s.(isPlaying := false) else s
  }

  /** The template literal of the "add" narration; `${x}` renders `String(x)`. */
  function AddedNarration(title: JsValue, artist: JsValue): (r: string)
    ensures var t, a := ToJsString(title), ToJsString(artist);
      && |r| == 7 + |t| + 5 + |a| + 27
      && r[..7] == "Track \""
      && r[7..7 + |t|] == t
      && r[7 + |t|..7 + |t| + 5] == "\" by "
      && r[7 + |t| + 5..7 + |t| + 5 + |a|] == a
      && r[|r| - 27..] == " was added to the playlist."
  {
    "Track \"" + ToJsString(title) + "\" by " + ToJsString(artist) + " was added to the playlist."
  }

  const RemovedNarration: string := "Track was removed from the playlist."

  /**
   * The object `{ ...payload }` that "add" appends. The payload holds exactly
   * id, title, artist and url, so the copy has those four fields and no
   * `onRemove` callback.
   */
  function TrackOf(payload: Object): (t: Track)
    ensures t.id == Get(payload, "id") && t.title == Get(payload, "title")
    ensures t.artist == Get(payload, "artist") && t.url == Get(payload, "url")
    ensures !t.hasRemoveHandler
  {
    Track(Get(payload, "id"), Get(payload, "title"), Get(payload, "artist"), Get(payload, "url"), false)
  }

  /**
   * The "play_track" case of `updatePlaylist`: a truthy id is looked up as
   * `String(id)` and played if found; otherwise the current track, if any, resumes.
   */
  function PlayRequest(s: AppState, trackId: JsValue): (r: AppState)
    ensures r == s.(currentTrack := r.currentTrack, isPlaying := r.isPlaying)
    ensures r != s ==> s.hasAudioElement && r.isPlaying && r.currentTrack.Some?
    ensures Truthy(trackId) && r != s ==>
      r.currentTrack.value in s.playlist && r.currentTrack.value.id == Str(ToJsString(trackId))
    ensures !Truthy(trackId) ==> r.currentTrack == s.currentTrack
  {
    if Truthy(trackId) then
      match Find(s.playlist, Str(ToJsString(trackId)))
      case Some(t) => PlayTrack(s, t)
      case None => s
    else if s.currentTrack.Some? then PlayTrack(s, s.currentTrack.value)
    else s
  }

  /** `updatePlaylist(action, payload)`. */
  function UpdatePlaylist(s: AppState, action: string, payload: Object): (r: AppState)
    ensures r == s.(playlist := r.playlist, currentTrack := r.currentTrack, isPlaying := r.isPlaying,
                    outbox := r.outbox)
    ensures s.outbox <= r.outbox
    ensures |r.outbox| == |s.outbox| + (if s.hasDataChannel && (action == "add" || action == "remove") then 1 else 0)
    ensures action != "add" && action != "remove" ==> r.playlist == s.playlist
    ensures action == "add" || action == "remove" ==> r.currentTrack == s.currentTrack && r.isPlaying == s.isPlaying
    ensures action !in ["add", "remove", "play_track", "pause_track"] ==> r == s
  {
    if action == "add" then
      SendClientEvent(s.(playlist := AddTrack(s.playlist, TrackOf(payload))),
                      ResponseCreate(AddedNarration(Get(payload, "title"), Get(payload, "artist"))))
    else if action == "remove" then
      SendClientEvent(s.(playlist := Without(s.playlist, Get(payload, "id"))),
                      ResponseCreate(RemovedNarration))
    else if action == "play_track" then PlayRequest(s, Get(payload, "track_id"))
    else if action == "pause_track" then PauseTrack(s)
    else s
  }

  /** The payload `{id, title, artist, url}` that `add_track` builds from its arguments. */
  function AddPayload(params: Object): (payload: Object)
    ensures Get(payload, "id") == Get(params, "track_id")
    ensures Get(payload, "title") == Get(params, "title") && Get(payload, "artist") == Get(params, "artist")
    ensures Get(payload, "url") == Get(params, "url")
  {
    map["id" := Get(params, "track_id"), "title" := Get(params, "title"),
        "artist" := Get(params, "artist"), "url" := Get(params, "url")]
  }

  /**
   * What the switch of `handleFunctionCall` does: call `updatePlaylist` with an
   * action and payload, do nothing (unknown name), or throw by reading
   * `params.track_id` when the arguments parsed to `null`.
   */
  datatype Dispatch = Call(action: string, payload: Object) | NoCall | ReadsNull

  /** The tool names the switch handles. */
  const HandledTools: seq<string> := ["add_track", "remove_track", "play_track", "pause_track"]

  /**
   * The switch of `handleFunctionCall`; `params` is `None` when the arguments
   * parsed to `null`. Only `pause_track` and unknown names never read `params`.
   */
  function ToolAction(name: string, params: Option<Object>): (d: Dispatch)
    ensures d.NoCall? <==> name !in HandledTools
    ensures d.ReadsNull? <==> params.None? && name in HandledTools && name != "pause_track"
    ensures d.Call? && d.action == "remove" ==> Get(d.payload, "id") == Undefined
    ensures d.Call? ==> d.action in ["add", "remove", "play_track", "pause_track"]
  {
    if name == "add_track" then
      if params.None? then ReadsNull else Call("add", AddPayload(params.value))
    else if name == "remove_track" then
      if params.None? then ReadsNull else Call("remove", map["track_id" := Get(params.value, "track_id")])
    else if name == "play_track" then
      if params.None? then ReadsNull else Call("play_track", map["track_id" := Get(params.value, "track_id")])
    else if name == "pause_track" then Call("pause_track", map[])
    else NoCall
  }

  /** The calls on which `handleFunctionCall` throws. */
  predicate CallThrows(o: Output) {
    || o.arguments.Unparsable?
    || (o.arguments.ParsedNull? && o.name in HandledTools && o.name != "pause_track")
  }

  /** `handleFunctionCall(output)`: parse the arguments, then dispatch on the tool name. */
  function HandleFunctionCall(s: AppState, o: Output): (r: Outcome)
    ensures r.threw <==> CallThrows(o)
    ensures r.threw ==> r.state == s
  {
    if o.arguments.Unparsable? then Outcome(s, true)
    else
      var params := if o.arguments.Parsed? then Some(o.arguments.params) else None;
      match ToolAction(o.name, params)
      case ReadsNull => Outcome(s, true)
      case NoCall => Outcome(s, false)
      case Call(action, payload) => Outcome(UpdatePlaylist(s, action, payload), false)
  }

  predicate IsFunctionCall(o: Output) {
    o.kind == "function_call"
  }

  /** The function-call items of an output array, in array order. */
  function FunctionCalls(outs: seq<Output>): (calls: seq<Output>)
    ensures |calls| <= |outs|
    ensures forall c :: c in calls <==> c in outs && IsFunctionCall(c)
  {
    if outs == [] then []
    else FunctionCalls(outs[..|outs| - 1]) + (if IsFunctionCall(outs[|outs| - 1]) then [outs[|outs| - 1]] else [])
  }

  /** The reference: the given calls applied one after another, stopping at the first that throws. */
  function ApplyCalls(s: AppState, calls: seq<Output>): (r: Outcome) {
    if calls == [] then Outcome(s, false)
    else
      var r := ApplyCalls(s, calls[..|calls| - 1]);
      if r.threw then r else HandleFunctionCall(r.state, calls[|calls| - 1])
  }

  /**
   * `output.forEach(o => { if (o.type === "function_call") handleFunctionCall(o) })`:
   * visits the items in order; an exception escapes the loop.
   */
  function ForEachOutput(s: AppState, outs: seq<Output>): (r: Outcome)
    ensures r.threw <==> exists i :: 0 <= i < |outs| && IsFunctionCall(outs[i]) && CallThrows(outs[i])
  {
    if outs == [] then Outcome(s, false)
    else
      var init := outs[..|outs| - 1];
      assert forall i :: 0 <= i < |init| ==> init[i] == outs[i];
      var r := ForEachOutput(s, init);
      var o := outs[|outs| - 1];
      if r.threw || !IsFunctionCall(o) then r else HandleFunctionCall(r.state, o)
  }

  /** The first step of `handleMessage`: send the registry on `session.created` unless already configured. */
  function ConfigureTools(s: AppState, ev: ServerEvent): (r: AppState)
    ensures r == s.(toolsConfigured := r.toolsConfigured, outbox := r.outbox)
    ensures r.toolsConfigured == (s.toolsConfigured || ev.kind == "session.created")
    ensures r.outbox == s.outbox +
      (if s.hasDataChannel && !s.toolsConfigured && ev.kind == "session.created"
       then [SessionUpdate(SessionTools)] else [])
  {
    if !s.toolsConfigured && ev.kind == "session.created"
    then SendClientEvent(s, SessionUpdate(SessionTools)).(toolsConfigured := true)
    else s
  }

  /**
   * `handleMessage(e)`. The listener exists only while there is a data channel;
   * without one a message changes nothing.
   */
  function HandleMessage(s: AppState, msg: InboundMessage): (r: Outcome)
    ensures !s.hasDataChannel ==> r == Outcome(s, false)
    ensures s.hasDataChannel && msg.Garbled? ==> r == Outcome(s, true)
    ensures msg.Message? && msg.event.kind != "session.created" && msg.event.kind != "response.done" ==>
      r == Outcome(s, false)
    ensures r.threw ==> s.hasDataChannel && (msg.Garbled? || msg.event.kind == "response.done")
  {
    if !s.hasDataChannel then Outcome(s, false)
    else
      match msg
      case Garbled => Outcome(s, true)
      case Message(ev) =>
        var s1 := ConfigureTools(s, ev);
        if ev.kind == "response.done" then
          match ev.response
          case NoResponse => Outcome(s1, true)
          case Response(output) =>
            if output.Some? then ForEachOutput(s1, output.value) else Outcome(s1, false)
        else Outcome(s1, false)
  }

  /**
   * How far `startSession` got before it finished or threw: the token fetch (or
   * creating the peer connection) failed; acquiring the microphone or creating
   * the data channel failed; the offer/answer exchange failed; or it connected.
   */
  datatype StartProgress = TokenFailed | MediaFailed | NegotiationFailed | Connected

  /** The state `startSession` leaves behind at each stage; the catch only logs. */
  function StartSession(s: AppState, progress: StartProgress): (r: AppState)
    ensures r.playlist == s.playlist && r.currentTrack == s.currentTrack && r.isPlaying == s.isPlaying
    ensures r.outbox == s.outbox && r.toolsConfigured == s.toolsConfigured
    ensures r.isSessionActive == s.isSessionActive
    ensures progress != TokenFailed ==> r.hasAudioElement
    ensures r.hasDataChannel == (s.hasDataChannel || progress == NegotiationFailed || progress == Connected)
    ensures r.hasPeerConnection == (s.hasPeerConnection || progress == Connected)
    ensures progress == TokenFailed ==> r == s
  {
    match progress
    case TokenFailed => s
    case MediaFailed => s.(hasAudioElement := true)
    case NegotiationFailed => s.(hasAudioElement := true, hasDataChannel := true)
    case Connected => s.(hasAudioElement := true, hasDataChannel := true, hasPeerConnection := true)
  }

  /** The channel's "open" listener, registered only while there is a channel. */
  function ChannelOpened(s: AppState): (r: AppState)
    ensures r == s.(isSessionActive := r.isSessionActive)
    ensures r.isSessionActive == (s.isSessionActive || s.hasDataChannel)
  {
    if s.hasDataChannel then s.(isSessionActive := true) else s
  }

  /** `stopSession`: tears the session down; the playlist and the selection survive. */
  function StopSession(s: AppState): (r: AppState)
    ensures !r.isSessionActive && !r.hasDataChannel && !r.hasPeerConnection && !r.toolsConfigured
    ensures r.playlist == s.playlist && r.currentTrack == s.currentTrack && r.isPlaying == s.isPlaying
    ensures r.outbox == s.outbox && r.hasAudioElement == s.hasAudioElement
  {
    s.(isSessionActive := false, hasDataChannel := false, hasPeerConnection := false, toolsConfigured := false)
  }

  /**
   * The Remove button of a rendered track calls `track.onRemove(track.id)`.
   * Only the initial track has that callback; on any other the call throws.
   */
  function RemoveClicked(s: AppState, t: Track): (r: Outcome)
    ensures r.threw <==> !t.hasRemoveHandler
    ensures r.threw ==> r.state == s
    ensures !r.threw ==> r.state == s.(playlist := r.state.playlist)
    ensures !r.threw ==> forall u :: u in r.state.playlist <==> u in s.playlist && u.id != t.id
    ensures !r.threw ==> r.state.playlist == Without(s.playlist, t.id)
  {
    if t.hasRemoveHandler then Outcome(s.(playlist := Without(s.playlist, t.id)), false)
    else Outcome(s, true)
  }

  /** Everything that can happen to the component, one at a time. */
  datatype Input =
    | Start(progress: StartProgress)
    | Open
    | Stop
    | Deliver(msg: InboundMessage)
    | UserPlay(track: Track)
    | UserPause
    | UserRemove(track: Track)

  function Step(s: AppState, input: Input): (r: AppState) {
    match input
    case Start(p) => StartSession(s, p)
    case Open => ChannelOpened(s)
    case Stop => StopSession(s)
    case Deliver(msg) => HandleMessage(s, msg).state
    case UserPlay(t) => PlayTrack(s, t)
    case UserPause => PauseTrack(s)
    case UserRemove(t) => RemoveClicked(s, t).state
  }

  function Run(s: AppState, inputs: seq<Input>): (r: AppState) {
    if inputs == [] then s else Step(Run(s, inputs[..|inputs| - 1]), inputs[|inputs| - 1])
  }

  /** The number of tool-registry messages in an outbox. */
  function SchemaSends(out: seq<ClientEvent>): (n: nat) {
    if out == [] then 0
    else SchemaSends(out[..|out| - 1]) + (if out[|out| - 1].SessionUpdate? then 1 else 0)
  }
}
