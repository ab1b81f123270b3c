/** The non-persisting reference store of src/logic/reference_store.tsx. */
module ReferenceStore {
  import opened Wrappers
  import opened Seqs
  import opened Messages
  import ReferenceCore

  /** The list after an add and the reference handed back. */
  datatype Outcome = Outcome(references: seq<Reference>, returned: Option<Reference>)

  /** `addPageRef`: the state updater returns the old state on a duplicate. */
  function AddPageRef(references: seq<Reference>, captured: Option<Reference>): (r: Outcome)
    ensures r.returned == captured
    ensures r.references == ReferenceCore.AddPage(references, captured).After(references)
  {
    match captured
    case None => Outcome(references, None)
    case Some(page) =>
      var found := Find((x: Reference) => x.kind == Webpage && x.url == page.url, references);
      Outcome(if found.None? then references + [page] else references, captured)
  }

  /** `addSelectionRef`. */
  function AddSelectionRef(references: seq<Reference>, captured: Option<Reference>): (r: Outcome)
    ensures r.returned == captured
    ensures r.references == ReferenceCore.AddSelection(references, captured).After(references)
  {
    if captured.Some? then Outcome(references + [captured.value], captured)
    else Outcome(references, None)
  }

  /** `removeReference`. */
  function RemoveReference(references: seq<Reference>, id: string): (r: seq<Reference>)
    ensures forall x :: x in r <==> x in references && x.id != id
    ensures r == ReferenceCore.Remove(references, id)
  {
    Filter((x: Reference) => x.id != id, references)
  }

  /** `clearReferences`. */
  function ClearReferences(references: seq<Reference>): (r: seq<Reference>)
    ensures r == ReferenceCore.Clear()
  {
    []
  }
}
