/**
 * The static tool registry sent to the model in the `session.update` event
 * (the `sessionUpdate` constant of client/components/App.jsx). Every tool is a
 * `type: "function"` entry whose parameters are an object schema.
 */
module ToolSchema {

  /** One declared argument: its name, primitive JSON type and description. */
  datatype Property = Property(name: string, valueType: string, description: string)

  datatype Tool = Tool(kind: string, name: string, description: string,
                       properties: seq<Property>, required: seq<string>)

  /** The `session` payload of the configuration event. */
  datatype SessionConfig = SessionConfig(tools: seq<Tool>, toolChoice: string)

  const AddTrackTool: Tool :=
    Tool("function", "add_track", "Add a track to the playlist",
         [Property("track_id", "string", "Unique ID of the track"),
          Property("title", "string", "Track title"),
          Property("artist", "string", "Track artist or creator"),
          Property("url", "string", "URL to stream the track audio from")],
         ["track_id", "title", "artist", "url"])

  const RemoveTrackTool: Tool :=
    Tool("function", "remove_track", "Remove a track from the playlist by its ID",
         [Property("track_id", "string", "Unique ID of the track to remove")],
         ["track_id"])

  const PlayTrackTool: Tool :=
    Tool("function", "play_track", "Play a specific track or resume the currently selected one",
         [Property("track_id", "string", "Track ID to play (optional; plays the current track if omitted)")],
         [])

  const PauseTrackTool: Tool :=
    Tool("function", "pause_track", "Pause the track that is currently playing", [], [])

  const SessionTools: SessionConfig :=
    SessionConfig([AddTrackTool, RemoveTrackTool, PlayTrackTool, PauseTrackTool], "auto")

  function PropertyNames(t: Tool): (names: seq<string>)
    ensures |names| == |t.properties|
    ensures forall i :: 0 <= i < |t.properties| ==> names[i] == t.properties[i].name
  {
    seq(|t.properties|, i requires 0 <= i < |t.properties| => t.properties[i].name)
  }

  function ToolNames(c: SessionConfig): (names: seq<string>)
    ensures |names| == |c.tools|
    ensures forall i :: 0 <= i < |c.tools| ==> names[i] == c.tools[i].name
  {
    seq(|c.tools|, i requires 0 <= i < |c.tools| => c.tools[i].name)
  }

  /**
   * A registry the model can use unambiguously: tool names are distinct, every
   * tool is a function with an explicit tool choice, and each required argument
   * is one of the tool's declared properties.
   */
  ghost predicate WellFormed(c: SessionConfig) {
    && c.toolChoice == "auto"
    && (forall i, j :: 0 <= i < j < |c.tools| ==> c.tools[i].name != c.tools[j].name)
    && (forall t :: t in c.tools ==> t.kind == "function")
    && (forall t, r :: t in c.tools && r in t.required ==> r in PropertyNames(t))
  }

  lemma SessionToolsWellFormed()
    ensures WellFormed(SessionTools)
    ensures ToolNames(SessionTools) == ["add_track", "remove_track", "play_track", "pause_track"]
  {
    assert PropertyNames(AddTrackTool) == ["track_id", "title", "artist", "url"];
    assert PropertyNames(RemoveTrackTool) == ["track_id"];
  }
}
