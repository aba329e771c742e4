// The data the quick-edit panel works on: a pipeline with its two ordered
// element lists, the pipeline elements themselves, and the payloads the
// pipeline backend answers with.

module PipelineModel {

  datatype Option<T> = None | Some(value: T)

  /** The runtime class of a pipeline element: a data processor
      invocation, a data sink invocation, or anything else the editor can
      hold (a data stream, say). */
  datatype Kind = Processor | Sink | Other

  datatype EventProperty = EventProperty(runtimeName: string, runtimeType: string)

  /** The shape of the records flowing through a stream. */
  datatype EventSchema = EventSchema(eventProperties: seq<EventProperty>)

  /** An input stream of an element; only its schema matters here. */
  datatype SpDataStream = SpDataStream(eventSchema: EventSchema)

  /** A user-editable configuration value of an element. */
  datatype StaticProperty = StaticProperty(internalName: string, value: string)

  /** A pipeline element; `dom` is the identity token the editor matches on. */
  datatype PipelineElement = PipelineElement(
    kind: Kind,
    dom: string,
    inputStreams: seq<SpDataStream>,
    staticProperties: seq<StaticProperty>)

  /** The answer of the reconfiguration endpoint. */
  datatype PipelineOperationStatus =
    PipelineOperationStatus(pipelineId: string, success: bool, title: string)

  /** The answer of the update endpoint. */
  datatype Message = Message(success: bool, notifications: seq<string>)

  /** How one HTTP round-trip ends: a response body was delivered, or the
      request itself failed and no body is available. */
  datatype Outcome<T> = Delivered(body: T) | TransportError

  /** The kind of the current selection; no selection is of no kind, as
      every `instanceof` test on an undefined value is false. */
  function KindOf(selection: Option<PipelineElement>): (r: Kind)
    ensures r != Other ==> selection.Some? && r == selection.value.kind
  {
    match selection
    case None => Other
    case Some(e) => e.kind
  }

  predicate IsInvocable(k: Kind)
  {
    k == Processor || k == Sink
  }

  /** A pipeline as the editor sees it: an identifier and the ordered lists
      of data processors (`sepas`) and data sinks (`actions`). */
  class Pipeline {
    var id: string
    var sepas: seq<PipelineElement>
    var actions: seq<PipelineElement>

    constructor (id: string, sepas: seq<PipelineElement>, actions: seq<PipelineElement>)
      ensures this.id == id && this.sepas == sepas && this.actions == actions
    {
      this.id := id;
      this.sepas := sepas;
      this.actions := actions;
    }
  }
}
