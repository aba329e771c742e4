# Quick-edit panel of the StreamPipes pipeline details view

This project models `QuickEditComponent`, the quick-edit panel that edits one
element of a running pipeline. The panel holds a pipeline with two ordered
lists: `sepas`, the data processors, and `actions`, the data sinks. It also
holds one selected pipeline element. Each element carries an identity token
`dom`.

- Committing writes the selected element back into the list of its own kind
  by identity token. Every entry whose `dom` equals the selected element's
  `dom` becomes the selected element. Every other entry is copied through.
- Changing the selection commits the previously selected element first. It
  then stores the new element, rebuilds the shown event schemas from the new
  element's input streams, and recomputes the `isDataProcessor` and
  `isInvocable` flags.
- Updating and reconfiguring commit first, then send the pipeline to the
  backend, and set or clear a busy flag depending on the answer.

Layout:

- `pipeline_model.dfy` (module `PipelineModel`): the pipeline elements, the
  backend payloads, the outcome of a round-trip, and the `Pipeline` class
  whose `sepas` and `actions` the panel reassigns.
- `element_commit.dfy` (module `ElementCommit`): `ReplaceByDom`, the
  specification of a commit, and the lemmas about it; `ReplaceEntries`, the
  push loop that builds the new list; `SchemasOf`, the specification of the
  schema list.
- `quick_edit.dfy` (module `QuickEdit`): the `QuickEditComponent` class and
  two scenarios proved against it.

Modelling decisions:

- The runtime `instanceof` tests become the field `kind: Kind` with the values
  `Processor`, `Sink` and `Other`. The selection is an `Option`. No selection
  behaves like `Other`, because every `instanceof` test on an undefined value
  is false.
- Each HTTP round-trip is a method parameter `Outcome<T>`. `Delivered(body)`
  means a response body arrived. `TransportError` means the request failed.
  For reconfiguration, a delivered status with `success` true is the success
  case and one with `success` false is the business failure.
- The status dialog, the reload event and the requests are ghost fields.
  `dialogs` logs the payload of every dialog opened. `reloadRequests` counts
  reload events. `sent` logs every pipeline sent to the backend: the endpoint,
  the element lists the request body carries, and the busy flag while the
  request is in flight.
- The `@Input` pipeline is a constructor argument of the panel.
- The child configuration forms edit the selected element in place. This is
  the method `EditSelected`: the static properties may change, while the
  `dom`, the kind and the input streams stay the same.

Behaviour of the code worth knowing:

- A commit replaces every entry carrying the selected token, not just the
  first. `ReplaceByDomUniqueHit` gives the single-entry reading when tokens
  are unique within a list.
- `pipelineReconfiguration` stays set after an unsuccessful status or a
  transport error (quickedit.component.ts:164-169).
- `pipelineUpdating` stays set after a transport error, since the update
  request at quickedit.component.ts:93 has no error handler.

## Model

| member | source | states |
|---|---|---|
| `PipelineModel.KindOf` | ui/src/app/pipeline-details/components/edit/quickedit.component.ts:100-102 | only a present element can be a processor or a sink, and then its kind is the element's own; no selection passes no `instanceof` test |
| `ElementCommit.CommitEntry` | ui/src/app/pipeline-details/components/edit/quickedit.component.ts:110-114 | the entry pushed for an old entry keeps its token and is either the selected element or the old entry |
| `ElementCommit.CommitSepas` | ui/src/app/pipeline-details/components/edit/quickedit.component.ts:99-117 | the processor list after a commit keeps its length; it is unchanged unless a processor is selected, and then each entry is the per-entry commit of the old one |
| `ElementCommit.CommitActions` | ui/src/app/pipeline-details/components/edit/quickedit.component.ts:99-129 | the sink list after a commit keeps its length; it is unchanged unless a sink is selected, and then each entry is the per-entry commit of the old one |
| `ElementCommit.SchemasFor` | ui/src/app/pipeline-details/components/edit/quickedit.component.ts:141-146 | a processor or sink shows one schema per input stream; any other selection shows none |
| `ElementCommit.ReplaceByDom` | ui/src/app/pipeline-details/components/edit/quickedit.component.ts:107-117 | the committed list has exactly one entry per old entry |
| `ElementCommit.ReplaceByDomAt` | ui/src/app/pipeline-details/components/edit/quickedit.component.ts:109-116 | each index of the committed list holds the selected element if the old entry there had its `dom`, and the old entry otherwise; order is kept |
| `ElementCommit.ReplaceByDomAll` | ui/src/app/pipeline-details/components/edit/quickedit.component.ts:109-116 | the per-index rule holds at every index at once |
| `ElementCommit.ReplaceByDomKeepsDoms` | ui/src/app/pipeline-details/components/edit/quickedit.component.ts:109-116 | committing never changes the token at any index |
| `ElementCommit.ReplaceByDomKeepsDomsUnique` | ui/src/app/pipeline-details/components/edit/quickedit.component.ts:109-116 | unique tokens within a list stay unique after a commit |
| `ElementCommit.ReplaceByDomKeepsKind` | ui/src/app/pipeline-details/components/edit/quickedit.component.ts:107-129 | a processor committed into a list of processors leaves a list of processors; likewise for sinks |
| `ElementCommit.ReplaceByDomUniqueHit` | ui/src/app/pipeline-details/components/edit/quickedit.component.ts:109-116 | with unique tokens, committing an element whose token is at index k is the single update at index k |
| `ElementCommit.ReplaceByDomUnchangedIff` | ui/src/app/pipeline-details/components/edit/quickedit.component.ts:109-116 | the list is unchanged if and only if every entry with the selected token already equals the selected element; an edit whose token matches nothing is dropped |
| `ElementCommit.ReplaceByDomContains` | ui/src/app/pipeline-details/components/edit/quickedit.component.ts:109-116 | the selected element is in the committed list if and only if it was there already or some entry carried its token |
| `ElementCommit.ReplaceByDomIdempotent` | ui/src/app/pipeline-details/components/edit/quickedit.component.ts:107-117 | committing the same element twice equals committing it once |
| `ElementCommit.ReplaceEntries` | ui/src/app/pipeline-details/components/edit/quickedit.component.ts:108-115 | the forEach/push loop returns `ReplaceByDom` of its input: the same length, and the selected element exactly at the indexes with its token |
| `ElementCommit.SchemasOf` | ui/src/app/pipeline-details/components/edit/quickedit.component.ts:143-145 | one schema per input stream |
| `ElementCommit.SchemasOfAt` | ui/src/app/pipeline-details/components/edit/quickedit.component.ts:143-145 | schema k is the schema of input stream k, in stream order |
| `ElementCommit.SchemasForSelection` | ui/src/app/pipeline-details/components/edit/quickedit.component.ts:141-146 | a processor or sink shows exactly its input streams' schemas in order; any other selection shows none |
| `QuickEdit.QuickEditComponent.constructor` | ui/src/app/pipeline-details/components/edit/quickedit.component.ts:54-66 | a fresh panel has no selection, both flags and both busy flags false, no schemas, an invalid form, and nothing sent or shown |
| `QuickEdit.QuickEditComponent.FormStatusChanged` | ui/src/app/pipeline-details/components/edit/quickedit.component.ts:79-81 | the form is valid only when the view is initialized and the form group is valid |
| `QuickEdit.QuickEditComponent.NgAfterViewInit` | ui/src/app/pipeline-details/components/edit/quickedit.component.ts:84-88 | the view becomes initialized and the form validity becomes the form group's |
| `QuickEdit.QuickEditComponent.UpdatePipelineElement` | ui/src/app/pipeline-details/components/edit/quickedit.component.ts:99-105 | a processor selection changes only `sepas`, a sink selection only `actions`, and any other selection neither |
| `QuickEdit.QuickEditComponent.UpdateDataProcessor` | ui/src/app/pipeline-details/components/edit/quickedit.component.ts:107-117 | `sepas` becomes `ReplaceByDom` of the old `sepas`; `actions` cannot change |
| `QuickEdit.QuickEditComponent.UpdateDataSink` | ui/src/app/pipeline-details/components/edit/quickedit.component.ts:119-129 | `actions` becomes `ReplaceByDom` of the old `actions`; `sepas` cannot change |
| `QuickEdit.QuickEditComponent.SetSelectedElement` | ui/src/app/pipeline-details/components/edit/quickedit.component.ts:136-148 | the old selection is committed before the new one is stored; no old selection leaves the pipeline untouched; schemas and flags are rebuilt from the new element alone |
| `QuickEdit.QuickEditComponent.UpdateTypeInfo` | ui/src/app/pipeline-details/components/edit/quickedit.component.ts:150-154 | `isDataProcessor` holds exactly for processors and `isInvocable` exactly for processors and sinks |
| `QuickEdit.QuickEditComponent.EditSelected` | ui/src/app/pipeline-details/components/edit/quickedit.component.ts:54 | an in-place edit of the selected element keeps the panel's derived state valid |
| `QuickEdit.QuickEditComponent.UpdatePipeline` | ui/src/app/pipeline-details/components/edit/quickedit.component.ts:90-96 | commits first: the request body carries the committed lists and is sent while `pipelineUpdating` is set; any delivered response requests a reload and clears the flag; a transport error leaves it set |
| `QuickEdit.QuickEditComponent.ReconfigurePipeline` | ui/src/app/pipeline-details/components/edit/quickedit.component.ts:156-170 | commits first and never rolls back: the request body carries the committed lists and is sent while `pipelineReconfiguration` is set; only a successful status clears `pipelineReconfiguration` and requests a reload; every outcome opens one dialog, with the status as payload or with none after a transport error |
| `QuickEdit.QuickEditComponent.AfterReconfiguration` | ui/src/app/pipeline-details/components/edit/quickedit.component.ts:172-174 | opens one dialog carrying the status |
| `QuickEdit.QuickEditComponent.ShowDialog` | ui/src/app/pipeline-details/components/edit/quickedit.component.ts:176-185 | appends exactly one dialog with the given payload |
| `QuickEdit.QuickEditComponent.DisplayErrors` | ui/src/app/pipeline-details/components/edit/quickedit.component.ts:187-189 | opens one dialog with the optional status as payload |
| `QuickEdit.DataProcessorIsInvocable` | ui/src/app/pipeline-details/components/edit/quickedit.component.ts:150-154 | in a valid panel `isDataProcessor` implies `isInvocable` |
| `QuickEdit.EditThenReselect` | ui/src/app/pipeline-details/components/edit/quickedit.component.ts:136-146 | select p1, edit it, select p2: `sepas` is the edited p1 then p2, and the panel shows p2's schemas |
| `QuickEdit.ReconfigureConflict` | ui/src/app/pipeline-details/components/edit/quickedit.component.ts:156-170 | a reconfiguration answered by an unsuccessful status sends the edited sink while busy, shows that exact status and stays busy |

## Left out

- `pipeline.service.ts` (the HTTP client) is not part of this model. Each of its calls is the `Outcome` argument of the method that makes it.
- The event-schema editor component is not part of this model. Its schema guess is a single REST call and its init is a lazy empty default.
- The code-generation test is not part of this model. The generator it exercises is not part of this model either.
- Angular plumbing is left out: the `FormBuilder` group, the `statusChanges` subscription mechanics, change detection, `EventEmitter` and the dialog rendering. The subscription callback is `FormStatusChanged` and the emitter is the `reloadRequests` count.
- Asynchrony is left out: each backend call and its completion callback run as one method. What holds while the request is in flight (the committed body, the busy flag set) is recorded in the `sent` log.
- The pipeline object is never rebound in the model. The parent may rebind the `@Input` pipeline after a reload, and a stale selection would then be committed into the new pipeline; the panel's `pipeline` is a constant here.
- The `selectedElement` getter only returns the field, so it is the field `selected`.
- Aliasing is left out: elements are values. The source may pass the very object stored in the list as the selection, so in-place edits are already visible there before the commit. The model makes every edit visible only through the commit.
- `UpdateDataProcessor` and `UpdateDataSink` require a selection. The source reads the selection's `dom` in the loop body and would fail on an undefined selection with a non-empty list; they are only reached through `UpdatePipelineElement`, which calls them for a processor or a sink.
- The `eventSchemas` field starts as `[]`, not undefined; nothing reads it before the first selection.
