// Writing an edited element back into a pipeline list by identity token,
// and collecting the input schemas of an element.

module ElementCommit {
  import opened PipelineModel

  /** The entry that stands at a position after `selected` is committed:
      the selected element where the identity tokens agree, else the old
      entry. */
  function CommitEntry(entry: PipelineElement, selected: PipelineElement): (r: PipelineElement)
    ensures r.dom == entry.dom
    ensures r == selected || r == entry
  {
    if entry.dom == selected.dom then selected else entry
  }

  /** The list after committing `selected`: built front to back, one entry
      pushed per old entry. */
  function ReplaceByDom(entries: seq<PipelineElement>, selected: PipelineElement): (r: seq<PipelineElement>)
    ensures |r| == |entries|
    decreases |entries|
  {
    if entries == [] then []
    else ReplaceByDom(entries[..|entries| - 1], selected) + [CommitEntry(entries[|entries| - 1], selected)]
  }

  /** Every position of the new list holds the selected element if the old
      entry there had the selected element's token, and the old entry
      otherwise. */
  lemma {:induction false} ReplaceByDomAt(entries: seq<PipelineElement>, selected: PipelineElement, k: int)
    requires 0 <= k < |entries|
    ensures ReplaceByDom(entries, selected)[k] ==
              if entries[k].dom == selected.dom then selected else entries[k]
    decreases |entries|
  {
    if k < |entries| - 1 {
      var front := entries[..|entries| - 1];
      ReplaceByDomAt(front, selected, k);
      assert front[k] == entries[k];
    }
  }

  lemma {:induction false} ReplaceByDomAll(entries: seq<PipelineElement>, selected: PipelineElement)
    ensures forall k :: 0 <= k < |entries| ==>
              ReplaceByDom(entries, selected)[k] == CommitEntry(entries[k], selected)
  {
    forall k | 0 <= k < |entries|
      ensures ReplaceByDom(entries, selected)[k] == CommitEntry(entries[k], selected)
    {
      ReplaceByDomAt(entries, selected, k);
    }
  }

  /** Committing never changes the sequence of identity tokens. */
  lemma {:induction false} ReplaceByDomKeepsDoms(entries: seq<PipelineElement>, selected: PipelineElement)
    ensures forall k :: 0 <= k < |entries| ==> ReplaceByDom(entries, selected)[k].dom == entries[k].dom
  {
    ReplaceByDomAll(entries, selected);
  }

  /** Every element of the list has kind `kind`. */
  predicate AllOfKind(entries: seq<PipelineElement>, kind: Kind)
  {
    forall k :: 0 <= k < |entries| ==> entries[k].kind == kind
  }

  /** A processor committed into a list of processors leaves a list of
      processors (and likewise for sinks). */
  lemma {:induction false} ReplaceByDomKeepsKind(entries: seq<PipelineElement>, selected: PipelineElement)
    requires AllOfKind(entries, selected.kind)
    ensures AllOfKind(ReplaceByDom(entries, selected), selected.kind)
  {
    ReplaceByDomAll(entries, selected);
  }

  /** Identity tokens are unique within a list. */
  predicate DomsUnique(entries: seq<PipelineElement>)
  {
    forall i, j :: 0 <= i < j < |entries| ==> entries[i].dom != entries[j].dom
  }

  lemma ReplaceByDomKeepsDomsUnique(entries: seq<PipelineElement>, selected: PipelineElement)
    requires DomsUnique(entries)
    ensures DomsUnique(ReplaceByDom(entries, selected))
  {
    ReplaceByDomKeepsDoms(entries, selected);
  }

  /** With unique tokens, committing an element whose token is found at
      position k puts it at position k and changes nothing else. */
  lemma ReplaceByDomUniqueHit(entries: seq<PipelineElement>, selected: PipelineElement, k: int)
    requires DomsUnique(entries)
    requires 0 <= k < |entries| && entries[k].dom == selected.dom
    ensures ReplaceByDom(entries, selected) == entries[k := selected]
  {
    ReplaceByDomAll(entries, selected);
    forall i | 0 <= i < |entries| && i != k
      ensures ReplaceByDom(entries, selected)[i] == entries[i]
    {
      assert entries[i].dom != selected.dom by {
        if i < k { assert entries[i].dom != entries[k].dom; }
        else { assert entries[k].dom != entries[i].dom; }
      }
    }
  }

  /** The list is left as it was exactly when every entry carrying the
      selected token already equals the selected element; in particular an
      edit whose token matches nothing is dropped without a trace. */
  lemma {:induction false} ReplaceByDomUnchangedIff(entries: seq<PipelineElement>, selected: PipelineElement)
    ensures ReplaceByDom(entries, selected) == entries <==>
              forall k :: 0 <= k < |entries| && entries[k].dom == selected.dom ==> entries[k] == selected
  {
    ReplaceByDomAll(entries, selected);
    if ReplaceByDom(entries, selected) == entries {
      forall k | 0 <= k < |entries| && entries[k].dom == selected.dom
        ensures entries[k] == selected
      {
        assert ReplaceByDom(entries, selected)[k] == selected;
      }
    }
  }

  /** The committed element appears in the new list exactly when it was
      already there or some entry carried its token. */
  lemma {:induction false} ReplaceByDomContains(entries: seq<PipelineElement>, selected: PipelineElement)
    ensures selected in ReplaceByDom(entries, selected) <==>
              selected in entries || exists k :: 0 <= k < |entries| && entries[k].dom == selected.dom
  {
    var r := ReplaceByDom(entries, selected);
    ReplaceByDomAll(entries, selected);
    if selected in r {
      var k :| 0 <= k < |r| && r[k] == selected;
      assert CommitEntry(entries[k], selected) == selected;
    }
    if selected in entries {
      var k :| 0 <= k < |entries| && entries[k] == selected;
      assert r[k] == selected;
    }
    if exists k :: 0 <= k < |entries| && entries[k].dom == selected.dom {
      var k :| 0 <= k < |entries| && entries[k].dom == selected.dom;
      assert r[k] == selected;
    }
  }

  /** Committing the same element twice is the same as committing it once. */
  lemma {:induction false} ReplaceByDomIdempotent(entries: seq<PipelineElement>, selected: PipelineElement)
    ensures ReplaceByDom(ReplaceByDom(entries, selected), selected) == ReplaceByDom(entries, selected)
  {
    var once := ReplaceByDom(entries, selected);
    ReplaceByDomAll(entries, selected);
    ReplaceByDomAll(once, selected);
  }

  /** The forEach/push loop of the panel: a new list with one entry per old
      entry, the selected element wherever the token matches. */
  method ReplaceEntries(entries: seq<PipelineElement>, selected: PipelineElement)
    returns (result: seq<PipelineElement>)
    ensures result == ReplaceByDom(entries, selected)
    ensures |result| == |entries|
    ensures forall k :: 0 <= k < |entries| ==>
              result[k] == if entries[k].dom == selected.dom then selected else entries[k]
  {
    result := [];
    var i := 0;
    while i < |entries|
      invariant 0 <= i <= |entries|
      invariant result == ReplaceByDom(entries[..i], selected)
    {
      var p := entries[i];
      assert entries[..i + 1][..i] == entries[..i];
      if p.dom == selected.dom {
        result := result + [selected];
      } else {
        result := result + [p];
      }
      i := i + 1;
    }
    assert entries[..i] == entries;
    ReplaceByDomAll(entries, selected);
  }

  /** The processor list after committing `selection`: changed only when a
      processor is selected. */
  function CommitSepas(selection: Option<PipelineElement>, sepas: seq<PipelineElement>): (r: seq<PipelineElement>)
    ensures |r| == |sepas|
    ensures KindOf(selection) != Processor ==> r == sepas
    ensures KindOf(selection) == Processor ==>
              forall k :: 0 <= k < |sepas| ==> r[k] == CommitEntry(sepas[k], selection.value)
  {
    if KindOf(selection) == Processor then
      ReplaceByDomAll(sepas, selection.value);
      ReplaceByDom(sepas, selection.value)
    else sepas
  }

  /** The sink list after committing `selection`: changed only when a sink
      is selected. */
  function CommitActions(selection: Option<PipelineElement>, actions: seq<PipelineElement>): (r: seq<PipelineElement>)
    ensures |r| == |actions|
    ensures KindOf(selection) != Sink ==> r == actions
    ensures KindOf(selection) == Sink ==>
              forall k :: 0 <= k < |actions| ==> r[k] == CommitEntry(actions[k], selection.value)
  {
    if KindOf(selection) == Sink then
      ReplaceByDomAll(actions, selection.value);
      ReplaceByDom(actions, selection.value)
    else actions
  }

  /** The schemas of the input streams, in stream order, one per stream. */
  function SchemasOf(streams: seq<SpDataStream>): (r: seq<EventSchema>)
    ensures |r| == |streams|
    decreases |streams|
  {
    if streams == [] then []
    else SchemasOf(streams[..|streams| - 1]) + [streams[|streams| - 1].eventSchema]
  }

  lemma {:induction false} SchemasOfAt(streams: seq<SpDataStream>, k: int)
    requires 0 <= k < |streams|
    ensures SchemasOf(streams)[k] == streams[k].eventSchema
    decreases |streams|
  {
    if k < |streams| - 1 {
      var front := streams[..|streams| - 1];
      SchemasOfAt(front, k);
      assert front[k] == streams[k];
    }
  }

  /** The schemas the panel shows for a selection: those of its input
      streams for a processor or sink, none otherwise. */
  function SchemasFor(selection: Option<PipelineElement>): (r: seq<EventSchema>)
    ensures IsInvocable(KindOf(selection)) ==> |r| == |selection.value.inputStreams|
    ensures !IsInvocable(KindOf(selection)) ==> r == []
  {
    if IsInvocable(KindOf(selection)) then SchemasOf(selection.value.inputStreams) else []
  }

  lemma SchemasForSelection(selection: Option<PipelineElement>)
    ensures IsInvocable(KindOf(selection)) ==>
              |SchemasFor(selection)| == |selection.value.inputStreams| &&
              forall k :: 0 <= k < |selection.value.inputStreams| ==>
                SchemasFor(selection)[k] == selection.value.inputStreams[k].eventSchema
    ensures !IsInvocable(KindOf(selection)) ==> SchemasFor(selection) == []
  {
    if IsInvocable(KindOf(selection)) {
      forall k | 0 <= k < |selection.value.inputStreams|
        ensures SchemasFor(selection)[k] == selection.value.inputStreams[k].eventSchema
      {
        SchemasOfAt(selection.value.inputStreams, k);
      }
    }
  }
}
