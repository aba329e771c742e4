// The quick-edit panel of the pipeline details view: it holds one pipeline
// and one selected element, writes the selected element back into the
// pipeline whenever the selection changes or the pipeline is sent to the
// backend, and keeps view flags derived from the selection.

module QuickEdit {
  import opened PipelineModel
  import opened ElementCommit

  /** The backend endpoint a pipeline is sent to. */
  datatype Endpoint = UpdateEndpoint | ReconfigureEndpoint

  /** A pipeline sent to the backend: the element lists the request body
      carries, and the panel's busy flag for that endpoint while the request
      is in flight. */
  datatype PipelineRequest = PipelineRequest(
    endpoint: Endpoint,
    sepas: seq<PipelineElement>,
    actions: seq<PipelineElement>,
    busy: bool)

  class QuickEditComponent {
    const pipeline: Pipeline
    var selected: Option<PipelineElement>
    var eventSchemas: seq<EventSchema>
    var formValid: bool
    var viewInitialized: bool
    var isInvocable: bool
    var isDataProcessor: bool
    var pipelineUpdating: bool
    var pipelineReconfiguration: bool
    /** The payloads of the status dialogs opened so far, oldest first;
        `None` is a dialog opened without a payload. */
    ghost var dialogs: seq<Option<PipelineOperationStatus>>
    /** How many times the parent view was asked to reload the pipeline. */
    ghost var reloadRequests: nat
    /** The pipelines sent to the backend so far, oldest first. */
    ghost var sent: seq<PipelineRequest>

    /** The derived view state agrees with the selection, and the form is
        only ever valid once the view is initialized. */
    ghost predicate Valid()
      reads this
    {
      && isDataProcessor == (KindOf(selected) == Processor)
      && isInvocable == IsInvocable(KindOf(selected))
      && eventSchemas == SchemasFor(selected)
      && (formValid ==> viewInitialized)
    }

    /** The panel bound to `pipeline`, with nothing selected. */
    constructor (pipeline: Pipeline)
      ensures Valid()
      ensures this.pipeline == pipeline && selected == None
      ensures !viewInitialized && !formValid
      ensures !pipelineUpdating && !pipelineReconfiguration
      ensures dialogs == [] && reloadRequests == 0 && sent == []
    {
      this.pipeline := pipeline;
      selected := None;
      eventSchemas := [];
      formValid := false;
      viewInitialized := false;
      isInvocable := false;
      isDataProcessor := false;
      pipelineUpdating := false;
      pipelineReconfiguration := false;
      dialogs := [];
      reloadRequests := 0;
      sent := [];
    }

    /** The form-status subscription set up on init: the panel's form counts
        as valid only after the view is initialized. */
    method FormStatusChanged(formGroupValid: bool)
      requires Valid()
      modifies this`formValid
      ensures Valid()
      ensures formValid == (viewInitialized && formGroupValid)
    {
      formValid := viewInitialized && formGroupValid;
    }

    /** After the view is initialized the form's own validity decides. */
    method NgAfterViewInit(formGroupValid: bool)
      requires Valid()
      modifies this`viewInitialized, this`formValid
      ensures Valid()
      ensures viewInitialized && formValid == formGroupValid
    {
      viewInitialized := true;
      formValid := viewInitialized && formGroupValid;
    }

    /** Commit the selection into the list of its own kind. */
    method UpdatePipelineElement()
      modifies pipeline`sepas, pipeline`actions
      ensures KindOf(selected) == Processor ==>
                pipeline.sepas == ReplaceByDom(old(pipeline.sepas), selected.value) &&
                pipeline.actions == old(pipeline.actions)
      ensures KindOf(selected) == Sink ==>
                pipeline.actions == ReplaceByDom(old(pipeline.actions), selected.value) &&
                pipeline.sepas == old(pipeline.sepas)
      ensures KindOf(selected) == Other ==>
                pipeline.sepas == old(pipeline.sepas) && pipeline.actions == old(pipeline.actions)
    {
      if KindOf(selected) == Processor {
        UpdateDataProcessor();
      } else if KindOf(selected) == Sink {
        UpdateDataSink();
      }
    }

    method UpdateDataProcessor()
      requires selected.Some?
      modifies pipeline`sepas
      ensures pipeline.sepas == ReplaceByDom(old(pipeline.sepas), selected.value)
    {
      var dataProcessors := ReplaceEntries(pipeline.sepas, selected.value);
      pipeline.sepas := dataProcessors;
    }

    method UpdateDataSink()
      requires selected.Some?
      modifies pipeline`actions
      ensures pipeline.actions == ReplaceByDom(old(pipeline.actions), selected.value)
    {
      var dataSinks := ReplaceEntries(pipeline.actions, selected.value);
      pipeline.actions := dataSinks;
    }

    /** Select `element`: commit the previous selection first, then store the
        new one and rebuild the schemas and kind flags from it alone. */
    method SetSelectedElement(element: Option<PipelineElement>)
      requires Valid()
      modifies this`selected, this`eventSchemas, this`isDataProcessor, this`isInvocable
      modifies pipeline`sepas, pipeline`actions
      ensures Valid()
      ensures pipeline.sepas == CommitSepas(old(selected), old(pipeline.sepas))
      ensures pipeline.actions == CommitActions(old(selected), old(pipeline.actions))
      ensures selected == element
      ensures eventSchemas == SchemasFor(element)
      ensures isDataProcessor == (KindOf(element) == Processor)
      ensures isInvocable == IsInvocable(KindOf(element))
    {
      if selected.Some? {
        UpdatePipelineElement();
      }
      selected := element;
      eventSchemas := [];
      if KindOf(selected) == Processor || KindOf(selected) == Sink {
        var streams := selected.value.inputStreams;
        var i := 0;
        while i < |streams|
          invariant 0 <= i <= |streams|
          invariant eventSchemas == SchemasOf(streams[..i])
          modifies this`eventSchemas
        {
          assert streams[..i + 1][..i] == streams[..i];
          eventSchemas := eventSchemas + [streams[i].eventSchema];
          i := i + 1;
        }
        assert streams[..i] == streams;
      }
      UpdateTypeInfo();
    }

    method UpdateTypeInfo()
      modifies this`isDataProcessor, this`isInvocable
      ensures isDataProcessor == (KindOf(selected) == Processor)
      ensures isInvocable == IsInvocable(KindOf(selected))
    {
      isDataProcessor := KindOf(selected) == Processor;
      isInvocable := KindOf(selected) == Processor || KindOf(selected) == Sink;
    }

    /** The configuration forms editing the selected element in place: its
        static properties change, its identity, kind and streams do not. */
    method EditSelected(edited: PipelineElement)
      requires Valid()
      requires selected.Some?
      requires edited.kind == selected.value.kind && edited.dom == selected.value.dom
      requires edited.inputStreams == selected.value.inputStreams
      modifies this`selected
      ensures Valid()
      ensures selected == Some(edited)
    {
      selected := Some(edited);
    }

    /** Commit, send the whole pipeline for update, and on any response ask
        the parent to reload and clear the busy flag. The request has no
        error handler: after a transport error the flag stays set. */
    method UpdatePipeline(outcome: Outcome<Message>)
      requires Valid()
      modifies this`pipelineUpdating, this`reloadRequests, this`sent
      modifies pipeline`sepas, pipeline`actions
      ensures Valid()
      ensures pipeline.sepas == CommitSepas(selected, old(pipeline.sepas))
      ensures pipeline.actions == CommitActions(selected, old(pipeline.actions))
      ensures sent == old(sent) + [PipelineRequest(UpdateEndpoint,
                CommitSepas(selected, old(pipeline.sepas)),
                CommitActions(selected, old(pipeline.actions)), true)]
      ensures pipelineUpdating <==> outcome.TransportError?
      ensures reloadRequests == old(reloadRequests) + (if outcome.Delivered? then 1 else 0)
    {
      pipelineUpdating := true;
      UpdatePipelineElement();
      sent := sent + [PipelineRequest(UpdateEndpoint, pipeline.sepas, pipeline.actions, pipelineUpdating)];
      match outcome {
        case Delivered(_) =>
          reloadRequests := reloadRequests + 1;
          pipelineUpdating := false;
        case TransportError =>
      }
    }

    /** Commit, send the whole pipeline for reconfiguration, and show the
        status in a dialog. Only a status reporting success asks the parent
        to reload and clears the busy flag; an unsuccessful status or a
        transport error (shown without payload) leaves it set. The commit
        is never rolled back. */
    method ReconfigurePipeline(outcome: Outcome<PipelineOperationStatus>)
      requires Valid()
      modifies this`pipelineReconfiguration, this`dialogs, this`reloadRequests, this`sent
      modifies pipeline`sepas, pipeline`actions
      ensures Valid()
      ensures pipeline.sepas == CommitSepas(selected, old(pipeline.sepas))
      ensures pipeline.actions == CommitActions(selected, old(pipeline.actions))
      ensures sent == old(sent) + [PipelineRequest(ReconfigureEndpoint,
                CommitSepas(selected, old(pipeline.sepas)),
                CommitActions(selected, old(pipeline.actions)), true)]
      ensures pipelineReconfiguration <==> !(outcome.Delivered? && outcome.body.success)
      ensures dialogs == old(dialogs) + [if outcome.Delivered? then Some(outcome.body) else None]
      ensures reloadRequests ==
                old(reloadRequests) + (if outcome.Delivered? && outcome.body.success then 1 else 0)
    {
      pipelineReconfiguration := true;
      UpdatePipelineElement();
      sent := sent + [PipelineRequest(ReconfigureEndpoint, pipeline.sepas, pipeline.actions, pipelineReconfiguration)];
      match outcome {
        case Delivered(statusMessage) =>
          if statusMessage.success {
            AfterReconfiguration(statusMessage, pipeline.id);
            reloadRequests := reloadRequests + 1;
            pipelineReconfiguration := false;
          } else {
            DisplayErrors(Some(statusMessage));
          }
        case TransportError =>
          DisplayErrors(None);
      }
    }

    method AfterReconfiguration(statusMessage: PipelineOperationStatus, pipelineId: string)
      modifies this`dialogs
      ensures dialogs == old(dialogs) + [Some(statusMessage)]
    {
      ShowDialog(Some(statusMessage));
    }

    /** Open the pipeline status dialog with `data` as its payload. */
    method ShowDialog(data: Option<PipelineOperationStatus>)
      modifies this`dialogs
      ensures dialogs == old(dialogs) + [data]
    {
      dialogs := dialogs + [data];
    }

    method DisplayErrors(statusMessage: Option<PipelineOperationStatus>)
      modifies this`dialogs
      ensures dialogs == old(dialogs) + [statusMessage]
    {
      ShowDialog(statusMessage);
    }
  }

  /** Whatever the selection, a panel in a valid state never flags a data
      processor that is not invocable. */
  lemma DataProcessorIsInvocable(panel: QuickEditComponent)
    requires panel.Valid()
    ensures panel.isDataProcessor ==> panel.isInvocable
  {
  }

  /** Select processor p1, edit it, select processor p2: the processor list
      holds the edited p1 at its old position and p2 untouched, and the
      panel shows p2's schemas. */
  method EditThenReselect(p1: PipelineElement, edited: PipelineElement, p2: PipelineElement)
    returns (sepas: seq<PipelineElement>, schemas: seq<EventSchema>)
    requires p1.kind == Processor && p2.kind == Processor
    requires edited.kind == p1.kind && edited.dom == p1.dom && edited.inputStreams == p1.inputStreams
    requires p1.dom != p2.dom
    ensures sepas == [edited, p2]
    ensures |schemas| == |p2.inputStreams|
    ensures forall k :: 0 <= k < |p2.inputStreams| ==> schemas[k] == p2.inputStreams[k].eventSchema
  {
    var pipeline := new Pipeline("pipeline", [p1, p2], []);
    var panel := new QuickEditComponent(pipeline);
    panel.SetSelectedElement(Some(p1));
    panel.EditSelected(edited);
    panel.SetSelectedElement(Some(p2));
    ReplaceByDomAt([p1, p2], edited, 0);
    ReplaceByDomAt([p1, p2], edited, 1);
    sepas := pipeline.sepas;
    schemas := panel.eventSchemas;
    SchemasForSelection(Some(p2));
  }

  /** Reconfiguring with a selected sink against a backend that reports a
      conflict: the request already carries the edited sink and is sent
      while busy, the dialog carries that exact status, and the busy flag
      stays set. */
  method ReconfigureConflict(sink: PipelineElement, edited: PipelineElement, conflict: PipelineOperationStatus)
    returns (actions: seq<PipelineElement>, ghost shown: seq<Option<PipelineOperationStatus>>,
             ghost request: seq<PipelineRequest>, busy: bool)
    requires sink.kind == Sink
    requires edited.kind == Sink && edited.dom == sink.dom && edited.inputStreams == sink.inputStreams
    requires !conflict.success
    ensures actions == [edited]
    ensures shown == [Some(conflict)]
    ensures request == [PipelineRequest(ReconfigureEndpoint, [], [edited], true)]
    ensures busy
  {
    var pipeline := new Pipeline("pipeline", [], [sink]);
    var panel := new QuickEditComponent(pipeline);
    panel.SetSelectedElement(Some(sink));
    panel.EditSelected(edited);
    panel.ReconfigurePipeline(Delivered(conflict));
    ReplaceByDomAt([sink], edited, 0);
    actions := pipeline.actions;
    shown := panel.dialogs;
    request := panel.sent;
    busy := panel.pipelineReconfiguration;
  }
}
