/** What the component's handlers promise, proved about the transition functions of AppSpec. */
module AppProperties {
  import opened Wrappers
  import opened JsValues
  import opened Playlist
  import opened ToolSchema
  import opened Protocol
  import opened AppSpec

  /**
   * Voice add: a new id is appended at the end, earlier tracks untouched; a
   * taken id leaves the playlist identical. Either way one narration is sent
   * (if there is a channel) and nothing else changes.
   */
  lemma AddTrackCall(s: AppState, o: Output, params: Object)
    requires o.name == "add_track" && o.arguments == Parsed(params)
    ensures var r := HandleFunctionCall(s, o);
      && !r.threw
      && ((exists i :: 0 <= i < |s.playlist| && s.playlist[i].id == Get(params, "track_id")) ==>
            r.state.playlist == s.playlist)
      && ((forall i :: 0 <= i < |s.playlist| ==> s.playlist[i].id != Get(params, "track_id")) ==>
            r.state.playlist == s.playlist + [TrackOf(AddPayload(params))])
      && r.state.outbox == s.outbox +
           (if s.hasDataChannel
            then [ResponseCreate(AddedNarration(Get(params, "title"), Get(params, "artist")))]
            else [])
      && r.state == s.(playlist := r.state.playlist, outbox := r.state.outbox)
  {
    var p := s.playlist;
    var t := TrackOf(AddPayload(params));
    if forall i :: 0 <= i < |p| ==> p[i].id != t.id {
      assert AddTrack(p, t) == p + [t];
    }
  }

  /**
   * Voice remove passes `{track_id}` but the filter reads `payload.id`, which is
   * `undefined`: only tracks whose id is `undefined` go, so every track with a
   * defined id stays, in order. The narration is sent regardless.
   */
  lemma RemoveTrackCall(s: AppState, o: Output)
    requires o.name == "remove_track" && o.arguments.Parsed?
    ensures var r := HandleFunctionCall(s, o);
      && !r.threw
      && r.state.playlist == Without(s.playlist, Undefined)
      && (forall t :: t in s.playlist && t.id != Undefined ==> t in r.state.playlist)
      && ((forall i :: 0 <= i < |s.playlist| ==> s.playlist[i].id != Undefined) ==>
            r.state.playlist == s.playlist)
      && r.state.outbox == s.outbox + (if s.hasDataChannel then [ResponseCreate(RemovedNarration)] else [])
      && r.state == s.(playlist := r.state.playlist, outbox := r.state.outbox)
  {
    if forall i :: 0 <= i < |s.playlist| ==> s.playlist[i].id != Undefined {
      WithoutAbsent(s.playlist, Undefined);
    }
  }

  /**
   * Voice play with a truthy id looks the track up by `String(id)`: when found
   * and there is an audio element it becomes current and playing; otherwise
   * nothing changes. The playlist and the outbox never change.
   */
  lemma PlayTrackCallWithId(s: AppState, o: Output, params: Object)
    requires o.name == "play_track" && o.arguments == Parsed(params)
    requires Truthy(Get(params, "track_id"))
    ensures var r := HandleFunctionCall(s, o);
      var key := Str(ToJsString(Get(params, "track_id")));
      && !r.threw
      && ((exists i :: 0 <= i < |s.playlist| && s.playlist[i].id == key) && s.hasAudioElement ==>
            && r.state.isPlaying
            && r.state.currentTrack.Some? && r.state.currentTrack.value in s.playlist
            && r.state.currentTrack.value.id == key
            && r.state == s.(currentTrack := r.state.currentTrack, isPlaying := true))
      && ((forall i :: 0 <= i < |s.playlist| ==> s.playlist[i].id != key) || !s.hasAudioElement ==>
            r.state == s)
  {
  }

  /**
   * The lookup key of voice play is always a string, so while every track has a
   * numeric id (the initial playlist: id 0) voice play by id selects nothing.
   */
  lemma PlayByIdNeverSelectsNumericId(s: AppState, o: Output, params: Object)
    requires o.name == "play_track" && o.arguments == Parsed(params)
    requires Truthy(Get(params, "track_id"))
    requires forall i :: 0 <= i < |s.playlist| ==> s.playlist[i].id.Num?
    ensures HandleFunctionCall(s, o).state == s
  {
    var key := Str(ToJsString(Get(params, "track_id")));
    assert forall i :: 0 <= i < |s.playlist| ==> s.playlist[i].id != key;
  }

  /**
   * Voice play without a usable id resumes the current track, if there is one
   * and an audio element; with no current track nothing changes.
   */
  lemma PlayTrackCallWithoutId(s: AppState, o: Output, params: Object)
    requires o.name == "play_track" && o.arguments == Parsed(params)
    requires !Truthy(Get(params, "track_id"))
    ensures var r := HandleFunctionCall(s, o);
      && !r.threw
      && (s.currentTrack.Some? && s.hasAudioElement ==> r.state == s.(isPlaying := true))
      && (s.currentTrack.None? || !s.hasAudioElement ==> r.state == s)
  {
  }

  /**
   * Voice pause only clears the playing flag (given an audio element); it never
   * reads its arguments, so it also pauses when they are `null`.
   */
  lemma PauseTrackCall(s: AppState, o: Output)
    requires o.name == "pause_track" && !o.arguments.Unparsable?
    ensures var r := HandleFunctionCall(s, o);
      !r.threw && r.state == (if s.hasAudioElement then s.(isPlaying := false) else s)
  {
  }

  /**
   * Narration count: add and remove each append exactly one `response.create`
   * (when there is a channel), other tools append nothing; the outbox only
   * grows. A call that throws (unparsable arguments, or `null` arguments to a
   * tool that reads `track_id`) does so before anything happens.
   */
  lemma NarrationPerCall(s: AppState, o: Output)
    ensures var r := HandleFunctionCall(s, o);
      && (CallThrows(o) ==> r == Outcome(s, true))
      && (!CallThrows(o) ==>
            && !r.threw
            && s.outbox <= r.state.outbox
            && |r.state.outbox| == |s.outbox| +
                 (if s.hasDataChannel && (o.name == "add_track" || o.name == "remove_track") then 1 else 0)
            && (forall k :: |s.outbox| <= k < |r.state.outbox| ==> r.state.outbox[k].ResponseCreate?))
  {
  }

  /** The dispatcher acts on the declared tools only: any other name is a no-op. */
  lemma {:induction false} UnknownToolIsNoOp(s: AppState, o: Output)
    requires !o.arguments.Unparsable?
    requires o.name !in ToolNames(SessionTools)
    ensures HandleFunctionCall(s, o) == Outcome(s, false)
  {
    SessionToolsWellFormed();
  }

  /** Appending a narration leaves the count of registry messages alone. */
  lemma NarrationKeepsSchemaSends(out: seq<ClientEvent>, instructions: string)
    ensures SchemaSends(out + [ResponseCreate(instructions)]) == SchemaSends(out)
  {
    assert (out + [ResponseCreate(instructions)])[..|out|] == out;
  }

  /** Every playlist action keeps the session flags and never sends the tool registry. */
  lemma UpdateKeepsSession(s: AppState, action: string, payload: Object)
    ensures var r := UpdatePlaylist(s, action, payload);
      && r.toolsConfigured == s.toolsConfigured && r.hasDataChannel == s.hasDataChannel
      && r.isSessionActive == s.isSessionActive && r.hasAudioElement == s.hasAudioElement
      && s.outbox <= r.outbox && SchemaSends(r.outbox) == SchemaSends(s.outbox)
  {
    if action == "add" {
      NarrationKeepsSchemaSends(s.outbox, AddedNarration(Get(payload, "title"), Get(payload, "artist")));
    } else if action == "remove" {
      NarrationKeepsSchemaSends(s.outbox, RemovedNarration);
    } else if action == "play_track" {
      var trackId := Get(payload, "track_id");
      if Truthy(trackId) {
        var found := Find(s.playlist, Str(ToJsString(trackId)));
        if found.Some? {
          assert PlayRequest(s, trackId) == PlayTrack(s, found.value);
        } else {
          assert PlayRequest(s, trackId) == s;
        }
      }
    }
  }

  lemma PlayRequestKeepsInv(s: AppState, trackId: JsValue)
    requires Inv(s)
    ensures Inv(PlayRequest(s, trackId))
  {
    if Truthy(trackId) {
      var found := Find(s.playlist, Str(ToJsString(trackId)));
      if found.Some? {
        assert PlayRequest(s, trackId) == PlayTrack(s, found.value);
      } else {
        assert PlayRequest(s, trackId) == s;
      }
    }
  }

  /** Every playlist action keeps the component invariant. */
  lemma UpdateKeepsInv(s: AppState, action: string, payload: Object)
    requires Inv(s)
    ensures Inv(UpdatePlaylist(s, action, payload))
  {
    var r := UpdatePlaylist(s, action, payload);
    if action == "add" {
      assert r.playlist == AddTrack(s.playlist, TrackOf(payload));
      assert r.isPlaying == s.isPlaying && r.currentTrack == s.currentTrack;
    } else if action == "remove" {
      WithoutUnique(s.playlist, Get(payload, "id"));
      assert r.playlist == Without(s.playlist, Get(payload, "id"));
      assert r.isPlaying == s.isPlaying && r.currentTrack == s.currentTrack;
    } else if action == "play_track" {
      PlayRequestKeepsInv(s, Get(payload, "track_id"));
    } else if action == "pause_track" {
      assert r == PauseTrack(s);
    } else {
      assert r == s;
    }
  }

  /** One function call keeps the session flags, and never sends the tool registry. */
  lemma CallKeepsSession(s: AppState, o: Output)
    ensures var r := HandleFunctionCall(s, o).state;
      && r.toolsConfigured == s.toolsConfigured && r.hasDataChannel == s.hasDataChannel
      && r.isSessionActive == s.isSessionActive && r.hasAudioElement == s.hasAudioElement
      && s.outbox <= r.outbox && SchemaSends(r.outbox) == SchemaSends(s.outbox)
  {
    if !o.arguments.Unparsable? {
      var d := ToolAction(o.name, if o.arguments.Parsed? then Some(o.arguments.params) else None);
      if d.Call? {
        UpdateKeepsSession(s, d.action, d.payload);
      }
    }
  }

  /** One function call keeps the component invariant. */
  lemma CallKeepsInv(s: AppState, o: Output)
    requires Inv(s)
    ensures Inv(HandleFunctionCall(s, o).state)
  {
    if !o.arguments.Unparsable? {
      var d := ToolAction(o.name, if o.arguments.Parsed? then Some(o.arguments.params) else None);
      if d.Call? {
        UpdateKeepsInv(s, d.action, d.payload);
      }
    }
  }

  // ---- batches: the forEach over response.output ----

  /** Applying `a` then `b` is applying `a + b`: the calls compose one after another. */
  lemma {:induction false} ApplyCallsAppend(s: AppState, a: seq<Output>, b: seq<Output>)
    ensures var r := ApplyCalls(s, a);
      ApplyCalls(s, a + b) == if r.threw then r else ApplyCalls(r.state, b)
  {
    if b == [] {
      assert a + b == a;
    } else {
      var b' := b[..|b| - 1];
      assert (a + b)[..|a + b| - 1] == a + b';
      assert (a + b)[|a + b| - 1] == b[|b| - 1];
      ApplyCallsAppend(s, a, b');
    }
  }

  /** Selecting the function calls of `a + b` selects those of `a`, then those of `b`. */
  lemma {:induction false} FunctionCallsAppend(a: seq<Output>, b: seq<Output>)
    ensures FunctionCalls(a + b) == FunctionCalls(a) + FunctionCalls(b)
  {
    if b == [] {
      assert a + b == a;
    } else {
      var b' := b[..|b| - 1];
      assert (a + b)[..|a + b| - 1] == a + b';
      assert (a + b)[|a + b| - 1] == b[|b| - 1];
      FunctionCallsAppend(a, b');
    }
  }

  /** A single item is selected exactly when it is a function call. */
  lemma FunctionCallsSingle(o: Output)
    ensures FunctionCalls([o]) == if IsFunctionCall(o) then [o] else []
  {
    assert [o][..0] == [];
  }

  /**
   * The forEach over a `response.done` output array is the same as applying
   * exactly its function-call items, in array order, one after another.
   */
  lemma {:induction false} ForEachOutputIsSequential(s: AppState, outs: seq<Output>)
    ensures ForEachOutput(s, outs) == ApplyCalls(s, FunctionCalls(outs))
  {
    if outs != [] {
      var init := outs[..|outs| - 1];
      var o := outs[|outs| - 1];
      ForEachOutputIsSequential(s, init);
      if IsFunctionCall(o) {
        var calls := FunctionCalls(outs);
        assert calls[..|calls| - 1] == FunctionCalls(init);
      } else {
        assert FunctionCalls(outs) == FunctionCalls(init);
      }
    }
  }

  /** The forEach over the first `i + 1` items is the one over the first `i`, then item `i`. */
  lemma ForEachOutputPrefix(s: AppState, outs: seq<Output>, i: nat)
    requires i < |outs|
    ensures var r := ForEachOutput(s, outs[..i]);
      ForEachOutput(s, outs[..i + 1]) ==
        if r.threw || !IsFunctionCall(outs[i]) then r else HandleFunctionCall(r.state, outs[i])
  {
    assert outs[..i + 1][..i] == outs[..i];
  }

  /** Once an item of the forEach throws, the items after it are not visited. */
  lemma {:induction false} ForEachOutputStopsAtThrow(s: AppState, a: seq<Output>, b: seq<Output>)
    requires ForEachOutput(s, a).threw
    ensures ForEachOutput(s, a + b) == ForEachOutput(s, a)
  {
    if b == [] {
      assert a + b == a;
    } else {
      assert (a + b)[..|a + b| - 1] == a + b[..|b| - 1];
      ForEachOutputStopsAtThrow(s, a, b[..|b| - 1]);
    }
  }

  /**
   * A batch aborts exactly when one of its calls throws; nothing catches the
   * exception, so the calls after it are not applied and the state is the one
   * reached by the calls before it.
   */
  lemma {:induction false} ApplyCallsThrows(s: AppState, calls: seq<Output>)
    ensures ApplyCalls(s, calls).threw <==> exists i :: 0 <= i < |calls| && CallThrows(calls[i])
  {
    if calls != [] {
      var init := calls[..|calls| - 1];
      ApplyCallsThrows(s, init);
      if exists i :: 0 <= i < |init| && CallThrows(init[i]) {
        var i :| 0 <= i < |init| && CallThrows(init[i]);
        assert calls[i] == init[i];
      }
      if exists i :: 0 <= i < |calls| && CallThrows(calls[i]) {
        var i :| 0 <= i < |calls| && CallThrows(calls[i]);
        if i < |init| {
          assert init[i] == calls[i];
        }
      }
    }
  }

  lemma {:induction false} ApplyCallsAbortsAt(s: AppState, calls: seq<Output>, k: nat)
    requires k < |calls| && CallThrows(calls[k])
    requires forall j :: 0 <= j < k ==> !CallThrows(calls[j])
    ensures ApplyCalls(s, calls) == Outcome(ApplyCalls(s, calls[..k]).state, true)
  {
    var before := calls[..k];
    var upTo := calls[..k + 1];
    assert forall j :: 0 <= j < |before| ==> before[j] == calls[j];
    ApplyCallsThrows(s, before);
    var r := ApplyCalls(s, before);
    assert !r.threw;
    assert upTo[..|upTo| - 1] == before && upTo[|upTo| - 1] == calls[k];
    assert HandleFunctionCall(r.state, calls[k]) == Outcome(r.state, true);
    assert ApplyCalls(s, upTo) == Outcome(r.state, true);
    ApplyCallsAppend(s, upTo, calls[k + 1..]);
    assert upTo + calls[k + 1..] == calls;
  }

  lemma {:induction false} ApplyCallsKeepsSessionAndInv(s: AppState, calls: seq<Output>)
    ensures var r := ApplyCalls(s, calls).state;
      && r.toolsConfigured == s.toolsConfigured && r.hasDataChannel == s.hasDataChannel
      && r.isSessionActive == s.isSessionActive && r.hasAudioElement == s.hasAudioElement
      && s.outbox <= r.outbox && SchemaSends(r.outbox) == SchemaSends(s.outbox)
      && (Inv(s) ==> Inv(r))
  {
    if calls != [] {
      var init := calls[..|calls| - 1];
      ApplyCallsKeepsSessionAndInv(s, init);
      var r := ApplyCalls(s, init);
      if !r.threw {
        CallKeepsSession(r.state, calls[|calls| - 1]);
        if Inv(s) {
          CallKeepsInv(r.state, calls[|calls| - 1]);
        }
      }
    }
  }

  // ---- the message handler and the session flags ----

  /**
   * `session.created` sends the tool registry once and marks the tools
   * configured; while they are configured it changes nothing.
   */
  lemma SessionCreated(s: AppState, resp: ResponseField)
    requires s.hasDataChannel
    ensures var r := HandleMessage(s, Message(ServerEvent("session.created", resp)));
      && !r.threw
      && (!s.toolsConfigured ==>
            r.state == s.(outbox := s.outbox + [SessionUpdate(SessionTools)], toolsConfigured := true))
      && (s.toolsConfigured ==> r.state == s)
  {
  }

  /**
   * A `response.done` with an output array yields the state of applying its
   * function calls in order, after any (absent) configuration step.
   */
  lemma ResponseDone(s: AppState, outs: seq<Output>)
    ensures HandleMessage(s, Message(ServerEvent("response.done", Response(Some(outs))))) ==
      if s.hasDataChannel then ApplyCalls(s, FunctionCalls(outs)) else Outcome(s, false)
  {
    ForEachOutputIsSequential(s, outs);
  }

  lemma MessageKeepsInv(s: AppState, msg: InboundMessage)
    requires Inv(s)
    ensures Inv(HandleMessage(s, msg).state)
  {
    if s.hasDataChannel && msg.Message? && msg.event.kind == "response.done"
       && msg.event.response.Response? && msg.event.response.output.Some? {
      var outs := msg.event.response.output.value;
      ForEachOutputIsSequential(s, outs);
      ApplyCallsKeepsSessionAndInv(s, FunctionCalls(outs));
    }
  }

  /** `stopSession` twice is `stopSession` once. */
  lemma StopSessionIdempotent(s: AppState)
    ensures StopSession(StopSession(s)) == StopSession(s)
  {
  }

  /** Every input keeps the component invariant. */
  lemma StepKeepsInv(s: AppState, input: Input)
    requires Inv(s)
    ensures Inv(Step(s, input))
  {
    match input
    case Deliver(msg) => MessageKeepsInv(s, msg);
    case UserRemove(t) => WithoutUnique(s.playlist, t.id);
    case _ =>
  }

  lemma {:induction false} RunKeepsInv(s: AppState, inputs: seq<Input>)
    requires Inv(s)
    ensures Inv(Run(s, inputs))
  {
    if inputs != [] {
      RunKeepsInv(s, inputs[..|inputs| - 1]);
      StepKeepsInv(Run(s, inputs[..|inputs| - 1]), inputs[|inputs| - 1]);
    }
  }

  /** From mount on, whatever happens, playing implies a selection and ids stay unique. */
  lemma ReachableStatesKeepInv(audioMounted: bool, inputs: seq<Input>)
    ensures var s := Run(Initial(audioMounted), inputs);
      (s.isPlaying ==> s.currentTrack.Some?) && UniqueIds(s.playlist)
  {
    RunKeepsInv(Initial(audioMounted), inputs);
  }

  /**
   * The registry messages already sent plus the one still allowed: a step
   * other than `stopSession` never increases it, and the outbox only grows.
   */
  function SchemaBudget(s: AppState): (b: nat) {
    SchemaSends(s.outbox) + (if s.toolsConfigured then 0 else 1)
  }

  lemma ConfigureKeepsSchemaBudget(s: AppState, ev: ServerEvent)
    requires s.hasDataChannel
    ensures var r := ConfigureTools(s, ev);
      SchemaBudget(r) == SchemaBudget(s) && s.outbox <= r.outbox
  {
    var r := ConfigureTools(s, ev);
    if !s.toolsConfigured && ev.kind == "session.created" {
      assert r.outbox == s.outbox + [SessionUpdate(SessionTools)];
      assert r.outbox[..|r.outbox| - 1] == s.outbox;
      assert r.toolsConfigured;
    }
  }

  lemma MessageKeepsSchemaBudget(s: AppState, msg: InboundMessage)
    ensures var r := HandleMessage(s, msg).state;
      SchemaBudget(r) == SchemaBudget(s) && s.outbox <= r.outbox
  {
    if s.hasDataChannel && msg.Message? {
      var ev := msg.event;
      var s1 := ConfigureTools(s, ev);
      ConfigureKeepsSchemaBudget(s, ev);
      if ev.kind == "response.done" && ev.response.Response? && ev.response.output.Some? {
        var outs := ev.response.output.value;
        assert HandleMessage(s, msg) == ForEachOutput(s1, outs);
        ForEachOutputIsSequential(s1, outs);
        ApplyCallsKeepsSessionAndInv(s1, FunctionCalls(outs));
      } else {
        assert HandleMessage(s, msg).state == s1;
      }
    }
  }

  lemma StepKeepsSchemaBudget(s: AppState, input: Input)
    requires !input.Stop?
    ensures var r := Step(s, input);
      SchemaBudget(r) == SchemaBudget(s) && s.outbox <= r.outbox
  {
    if input.Deliver? {
      MessageKeepsSchemaBudget(s, input.msg);
    }
  }

  /**
   * Between two `stopSession` calls the tool registry is sent at most once,
   * and not at all once the tools are configured; the outbox only grows.
   */
  lemma {:induction false} SchemaSentAtMostOnce(s: AppState, inputs: seq<Input>)
    requires forall i :: 0 <= i < |inputs| ==> !inputs[i].Stop?
    ensures var r := Run(s, inputs);
      && s.outbox <= r.outbox
      && SchemaSends(r.outbox) <= SchemaSends(s.outbox) + (if s.toolsConfigured then 0 else 1)
  {
    if inputs != [] {
      var init := inputs[..|inputs| - 1];
      SchemaSentAtMostOnce(s, init);
      var mid := Run(s, init);
      StepKeepsSchemaBudget(mid, inputs[|inputs| - 1]);
      assert SchemaBudget(Run(s, inputs)) == SchemaBudget(mid);
      SchemaBudgetInvariant(s, init);
    }
  }

  lemma {:induction false} SchemaBudgetInvariant(s: AppState, inputs: seq<Input>)
    requires forall i :: 0 <= i < |inputs| ==> !inputs[i].Stop?
    ensures SchemaBudget(Run(s, inputs)) == SchemaBudget(s)
  {
    if inputs != [] {
      SchemaBudgetInvariant(s, inputs[..|inputs| - 1]);
      StepKeepsSchemaBudget(Run(s, inputs[..|inputs| - 1]), inputs[|inputs| - 1]);
    }
  }

  const ExampleAdd: Output :=
    Output("function_call", "add_track",
           Parsed(map["track_id" := Str("a1"), "title" := Str("Tea"), "artist" := Str("Band"), "url" := Str("u")]))

  const ExampleRemove: Output :=
    Output("function_call", "remove_track", Parsed(map["track_id" := Str("a1")]))

  /** A one-call batch is that call. */
  lemma SingleCall(s: AppState, o: Output)
    ensures ApplyCalls(s, [o]) == HandleFunctionCall(s, o)
  {
    assert [o][..0] == [];
  }

  lemma ExampleBatchCalls()
    ensures FunctionCalls([ExampleAdd, ExampleRemove]) == [ExampleAdd, ExampleRemove]
  {
    assert [ExampleAdd, ExampleRemove] == [ExampleAdd] + [ExampleRemove];
    FunctionCallsSingle(ExampleAdd);
    FunctionCallsSingle(ExampleRemove);
    FunctionCallsAppend([ExampleAdd], [ExampleRemove]);
  }

  lemma ExampleAddStep(s: AppState)
    requires s.hasDataChannel && s.playlist == [InitialTrack]
    ensures var r := HandleFunctionCall(s, ExampleAdd);
      && !r.threw && r.state.hasDataChannel
      && r.state.playlist == [InitialTrack, Track(Str("a1"), Str("Tea"), Str("Band"), Str("u"), false)]
      && |r.state.outbox| == |s.outbox| + 1
  {
    var params := ExampleAdd.arguments.params;
    var t := Track(Str("a1"), Str("Tea"), Str("Band"), Str("u"), false);
    assert TrackOf(AddPayload(params)) == t;
    assert HandleFunctionCall(s, ExampleAdd) == Outcome(UpdatePlaylist(s, "add", AddPayload(params)), false);
    var p := AddTrack([InitialTrack], t);
    assert p[..1] == [InitialTrack] && p[1] == t;
    assert p == [InitialTrack, t];
  }

  lemma ExampleRemoveStep(s: AppState)
    requires s.hasDataChannel && s.playlist == [InitialTrack, Track(Str("a1"), Str("Tea"), Str("Band"), Str("u"), false)]
    ensures var r := HandleFunctionCall(s, ExampleRemove);
      && !r.threw && r.state.playlist == s.playlist && |r.state.outbox| == |s.outbox| + 1
  {
    RemoveTrackCall(s, ExampleRemove);
  }

  /**
   * A batch that adds a track and then asks to remove it by voice keeps the
   * track (the filter reads `payload.id`) but narrates both.
   */
  lemma AddThenVoiceRemoveKeepsTrack(s: AppState)
    requires s.hasDataChannel && s.playlist == [InitialTrack]
    ensures var r := HandleMessage(s, Message(ServerEvent("response.done", Response(Some([ExampleAdd, ExampleRemove])))));
      && !r.threw
      && r.state.playlist == [InitialTrack, Track(Str("a1"), Str("Tea"), Str("Band"), Str("u"), false)]
      && |r.state.outbox| == |s.outbox| + 2
  {
    ResponseDone(s, [ExampleAdd, ExampleRemove]);
    ExampleBatchCalls();
    ApplyCallsAppend(s, [ExampleAdd], [ExampleRemove]);
    assert [ExampleAdd] + [ExampleRemove] == [ExampleAdd, ExampleRemove];
    SingleCall(s, ExampleAdd);
    ExampleAddStep(s);
    var r1 := HandleFunctionCall(s, ExampleAdd);
    SingleCall(r1.state, ExampleRemove);
    ExampleRemoveStep(r1.state);
  }
}
