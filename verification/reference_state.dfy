/** The persisting reference store of src/logic/reference_state.ts. Page
    and selection capture are inputs (`None` when capture fails); local
    storage is an abstract map from key to the stored list. */
module ReferenceState {
  import opened Wrappers
  import opened Seqs
  import opened Messages
  import ReferenceCore

  /** The local-storage key the list is saved under. */
  const ReferencesKey: string := "references"

  datatype Store = Store(references: seq<Reference>, storage: map<string, seq<Reference>>)

  /** A store after an add: the new store and the reference handed back. */
  datatype Outcome = Outcome(store: Store, returned: Option<Reference>)

  /** `set({references: refs})` followed by `saveToStorage("local", "references", refs)`. */
  function SetAndSave(s: Store, refs: seq<Reference>): Store {
    Store(refs, s.storage[ReferencesKey := refs])
  }

  /** The in-memory list and the persisted one agree. */
  predicate Saved(s: Store) {
    ReferencesKey in s.storage && s.storage[ReferencesKey] == s.references
  }

  /** `addPageRef`: uses `find` for the duplicate test. */
  function AddPageRef(s: Store, captured: Option<Reference>): (r: Outcome)
    ensures r.returned == captured
    ensures r.store.references == ReferenceCore.AddPage(s.references, captured).After(s.references)
    ensures ReferenceCore.AddPage(s.references, captured).update.None? ==> r.store == s
    ensures ReferenceCore.AddPage(s.references, captured).update.Some? ==>
              Saved(r.store) && r.store.storage == s.storage[ReferencesKey := r.store.references]
  {
    match captured
    case None => Outcome(s, None)
    case Some(page) =>
      if Find((x: Reference) => x.kind == Webpage && x.url == page.url, s.references).None? then
        Outcome(SetAndSave(s, s.references + [page]), captured)
      else
        Outcome(s, captured)
  }

  /** `addSelectionRef`: appends without deduplication. */
  function AddSelectionRef(s: Store, captured: Option<Reference>): (r: Outcome)
    ensures r.returned == captured
    ensures r.store.references == ReferenceCore.AddSelection(s.references, captured).After(s.references)
    ensures captured.None? ==> r.store == s
    ensures captured.Some? ==> Saved(r.store) && r.store.storage == s.storage[ReferencesKey := r.store.references]
  {
    match captured
    case None => Outcome(s, None)
    case Some(sel) => Outcome(SetAndSave(s, s.references + [sel]), captured)
  }

  /** `removeRef`. */
  function RemoveRef(s: Store, id: string): (r: Store)
    ensures r.references == ReferenceCore.Remove(s.references, id)
    ensures Saved(r) && r.storage == s.storage[ReferencesKey := r.references]
  {
    SetAndSave(s, Filter((x: Reference) => x.id != id, s.references))
  }

  /** `clearReferences`. */
  function ClearReferences(s: Store): (r: Store)
    ensures r.references == []
    ensures Saved(r) && r.storage == s.storage[ReferencesKey := []]
  {
    SetAndSave(s, [])
  }

  /** `loadReferences`: the stored list, or the default `[]`. */
  function LoadReferences(s: Store): (r: Store)
    ensures r.storage == s.storage
    ensures ReferencesKey in s.storage ==> r.references == s.storage[ReferencesKey]
    ensures ReferencesKey !in s.storage ==> r.references == []
  {
    Store(if ReferencesKey in s.storage then s.storage[ReferencesKey] else [], s.storage)
  }

  /** Loading twice is loading once. */
  lemma LoadIdempotent(s: Store)
    ensures LoadReferences(LoadReferences(s)) == LoadReferences(s)
  {
  }

  /** Every operation leaves a saved store saved, so a reload right after it
      restores exactly the list it produced. */
  lemma ReloadRestores(s: Store, captured: Option<Reference>, id: string)
    requires Saved(s)
    ensures var t := AddPageRef(s, captured).store; LoadReferences(t) == t
    ensures var t := AddSelectionRef(s, captured).store; LoadReferences(t) == t
    ensures var t := RemoveRef(s, id); LoadReferences(t) == t
    ensures var t := ClearReferences(s); LoadReferences(t) == t
  {
  }

  /** Clearing an empty or non-empty store leaves it empty, also after a
      reload, and clearing again changes nothing. */
  lemma ClearIdempotent(s: Store)
    ensures LoadReferences(ClearReferences(s)).references == []
    ensures ClearReferences(ClearReferences(s)) == ClearReferences(s)
  {
  }

  /** Adding the same page twice yields a single entry for it. */
  lemma PageTwice(s: Store, page: Reference)
    requires page.kind == Webpage && s.references == []
    ensures AddPageRef(AddPageRef(s, Some(page)).store, Some(page)).store.references == [page]
  {
    ReferenceCore.AddPageTwice(s.references, page);
  }

  /** Two selections with identical content yield two entries. */
  lemma SelectionTwice(s: Store, sel: Reference)
    requires s.references == []
    ensures AddSelectionRef(AddSelectionRef(s, Some(sel)).store, Some(sel)).store.references == [sel, sel]
  {
  }
}
