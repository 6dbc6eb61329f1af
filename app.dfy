/**
 * The `App` component as an object: its React state and refs are fields, its
 * handlers are methods that update them in the order the source does. Each
 * method's new state is the corresponding transition of AppSpec applied to
 * the old state, and each keeps the component invariant.
 */
module AppComponent {
  import opened Wrappers
  import opened JsValues
  import opened Playlist
  import opened ToolSchema
  import opened Protocol
  import opened AppSpec
  import opened AppProperties

  class App {
    var isSessionActive: bool
    var hasDataChannel: bool
    var hasPeerConnection: bool
    var toolsConfigured: bool
    var hasAudioElement: bool
    var playlist: seq<Track>
    var currentTrack: Option<Track>
    var isPlaying: bool
    /** Everything written to the data channel, oldest first. */
    var outbox: seq<ClientEvent>

    function State(): (s: AppState)
      reads this
    {
      AppState(isSessionActive, hasDataChannel, hasPeerConnection, toolsConfigured, hasAudioElement,
               playlist, currentTrack, isPlaying, outbox)
    }

    ghost predicate Valid()
      reads this
    {
      Inv(State())
    }

    constructor (audioMounted: bool)
      ensures Valid() && State() == Initial(audioMounted)
    {
      isSessionActive, hasDataChannel, hasPeerConnection, toolsConfigured := false, false, false, false;
      hasAudioElement := audioMounted;
      playlist := [InitialTrack];
      currentTrack, isPlaying := None, false;
      outbox := [];
    }

    method SendClientEvent(e: ClientEvent)
      requires Valid()
      modifies this
      ensures Valid() && State() == AppSpec.SendClientEvent(old(State()), e)
    {
      if hasDataChannel {
        outbox := outbox + [e];
      }
    }

    method PlayTrack(t: Track)
      requires Valid()
      modifies this
      ensures Valid() && State() == AppSpec.PlayTrack(old(State()), t)
    {
      if hasAudioElement {
        currentTrack := Some(t);
        isPlaying := true;
      }
    }

    method PauseTrack()
      requires Valid()
      modifies this
      ensures Valid() && State() == AppSpec.PauseTrack(old(State()))
    {
      if hasAudioElement {
        isPlaying := false;
      }
    }

    method UpdatePlaylist(action: string, payload: Object)
      requires Valid()
      modifies this
      ensures Valid() && State() == AppSpec.UpdatePlaylist(old(State()), action, payload)
    {
      UpdateKeepsInv(State(), action, payload);
      if action == "add" {
        playlist := AddTrack(playlist, TrackOf(payload));
        SendClientEvent(ResponseCreate(AddedNarration(Get(payload, "title"), Get(payload, "artist"))));
      } else if action == "remove" {
        playlist := Without(playlist, Get(payload, "id"));
        SendClientEvent(ResponseCreate(RemovedNarration));
      } else if action == "play_track" {
        PlayRequested(Get(payload, "track_id"));
      } else if action == "pause_track" {
        PauseTrack();
      }
    }

    /** The "play_track" case of `updatePlaylist`: play by id, or resume the current track. */
    method PlayRequested(trackId: JsValue)
      requires Valid()
      modifies this
      ensures Valid() && State() == PlayRequest(old(State()), trackId)
    {
      if Truthy(trackId) {
        var trackToPlay := Find(playlist, Str(ToJsString(trackId)));
        if trackToPlay.Some? {
          PlayTrack(trackToPlay.value);
        }
      } else if currentTrack.Some? {
        PlayTrack(currentTrack.value);
      }
    }

    method HandleFunctionCall(o: Output) returns (threw: bool)
      requires Valid()
      modifies this
      ensures Valid() && Outcome(State(), threw) == AppSpec.HandleFunctionCall(old(State()), o)
    {
      if o.arguments.Unparsable? {
        return true;
      }
      // `None` is the parsed value `null`: reading `params.track_id` from it throws.
      var params := if o.arguments.Parsed? then Some(o.arguments.params) else None;
      threw := false;
      if o.name == "add_track" {
        if params.None? {
          return true;
        }
        UpdatePlaylist("add", AddPayload(params.value));
      } else if o.name == "remove_track" {
        if params.None? {
          return true;
        }
        UpdatePlaylist("remove", map["track_id" := Get(params.value, "track_id")]);
      } else if o.name == "play_track" {
        if params.None? {
          return true;
        }
        UpdatePlaylist("play_track", map["track_id" := Get(params.value, "track_id")]);
      } else if o.name == "pause_track" {
        UpdatePlaylist("pause_track", map[]);
      }
    }

    /** `event.response.output.forEach(...)`: hand each function call, in order, to the dispatcher. */
    method HandleOutputs(outs: seq<Output>) returns (threw: bool)
      requires Valid()
      modifies this
      ensures Valid() && Outcome(State(), threw) == ForEachOutput(old(State()), outs)
    {
      var i := 0;
      while i < |outs|
        invariant 0 <= i <= |outs|
        invariant Valid()
        invariant ForEachOutput(old(State()), outs[..i]) == Outcome(State(), false)
      {
        ForEachOutputPrefix(old(State()), outs, i);
        if outs[i].kind == "function_call" {
          threw := HandleFunctionCall(outs[i]);
          if threw {
            ForEachOutputStopsAtThrow(old(State()), outs[..i + 1], outs[i + 1..]);
            assert outs[..i + 1] + outs[i + 1..] == outs;
            return;
          }
        }
        i := i + 1;
      }
      assert outs[..i] == outs;
      threw := false;
    }

    /** `handleMessage(e)`, the data channel's "message" listener. */
    method HandleMessage(msg: InboundMessage) returns (threw: bool)
      requires Valid()
      modifies this
      ensures Valid() && Outcome(State(), threw) == AppSpec.HandleMessage(old(State()), msg)
    {
      if !hasDataChannel {
        return false;
      }
      if msg.Garbled? {
        return true;
      }
      var event := msg.event;
      if !toolsConfigured && event.kind == "session.created" {
        SendClientEvent(SessionUpdate(SessionTools));
        toolsConfigured := true;
      }
      threw := false;
      if event.kind == "response.done" {
        if event.response.NoResponse? {
          threw := true;
        } else if event.response.output.Some? {
          threw := HandleOutputs(event.response.output.value);
        }
      }
    }

    /** The effect `startSession` leaves behind, given how far it got. */
    method StartSession(progress: StartProgress)
      requires Valid()
      modifies this
      ensures Valid() && State() == AppSpec.StartSession(old(State()), progress)
    {
      if progress == TokenFailed {
        return;
      }
      hasAudioElement := true;
      if progress == MediaFailed {
        return;
      }
      hasDataChannel := true;
      if progress == Connected {
        hasPeerConnection := true;
      }
    }

    /** The data channel's "open" listener. */
    method OnChannelOpen()
      requires Valid()
      modifies this
      ensures Valid() && State() == ChannelOpened(old(State()))
    {
      if hasDataChannel {
        isSessionActive := true;
      }
    }

    method StopSession()
      requires Valid()
      modifies this
      ensures Valid() && State() == AppSpec.StopSession(old(State()))
    {
      isSessionActive := false;
      hasDataChannel := false;
      hasPeerConnection := false;
      toolsConfigured := false;
    }

    /** The Remove button of a rendered track: `track.onRemove(track.id)`. */
    method OnRemoveClicked(t: Track) returns (threw: bool)
      requires Valid()
      modifies this
      ensures Valid() && Outcome(State(), threw) == RemoveClicked(old(State()), t)
    {
      if !t.hasRemoveHandler {
        return true;
      }
      WithoutUnique(playlist, t.id);
      playlist := Without(playlist, t.id);
      threw := false;
    }
  }
}
