/**
 * The structured events exchanged over the realtime data channel, as already
 * parsed values. Outbound: `session.update` carrying the tool registry and
 * `response.create` carrying narration instructions. Inbound: any event with a
 * `type`; the dispatcher looks at `session.created` and `response.done`.
 */
module Protocol {
  import opened Wrappers
  import opened JsValues
  import opened ToolSchema

  datatype ClientEvent =
    | SessionUpdate(session: SessionConfig)
    | ResponseCreate(instructions: string)

  /**
   * The `arguments` string of a function call after `JSON.parse`.
   * `Unparsable` stands for every text on which `JSON.parse` throws (malformed
   * JSON, a missing string). `ParsedNull` is the text `null`: parsing succeeds,
   * and only reading a property of the result throws. A text that parses to
   * another primitive reads every key as `undefined` and is written
   * `Parsed(map[])`.
   */
  datatype Arguments = Parsed(params: Object) | ParsedNull | Unparsable

  /** One item of `response.output`. */
  datatype Output = Output(kind: string, name: string, arguments: Arguments)

  /**
   * The `response` field of an inbound event: absent (property access on it
   * throws) or an object whose `output` is an array or absent.
   */
  datatype ResponseField = NoResponse | Response(output: Option<seq<Output>>)

  datatype ServerEvent = ServerEvent(kind: string, response: ResponseField)

  /** A raw data-channel message: `JSON.parse(e.data)` succeeds or throws. */
  datatype InboundMessage = Message(event: ServerEvent) | Garbled
}
