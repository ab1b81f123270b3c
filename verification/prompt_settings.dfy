/** The prompt-template editor of src/components/prompt_settings.tsx. Each
    edit returns the list it hands to the setter, or None when the setter
    is not called. */
module PromptSettings {
  import opened Wrappers
  import opened Seqs
  import opened Config

  /** `findIndex` by template id. */
  function IndexOf(templates: seq<PromptTemplate>, id: string): (r: Option<nat>)
    ensures r.Some? ==> r.value < |templates| && templates[r.value].id == id &&
                        forall j :: 0 <= j < r.value ==> templates[j].id != id
    ensures r.None? <==> forall j :: 0 <= j < |templates| ==> templates[j].id != id
  {
    FindIndex((t: PromptTemplate) => t.id == id, templates)
  }

  /** A change one of the template fields makes. */
  datatype Edit = SetPrompt(prompt: string) | SetName(name: string) | SetRefType(refType: ChatRefType) {
    /** The template with this field changed. */
    function Apply(t: PromptTemplate): PromptTemplate {
      match this
      case SetPrompt(p) => t.(prompt := p)
      case SetName(n) => t.(name := n)
      case SetRefType(k) => t.(refType := k)
    }
  }

  /** `updateTemplatePrompt`, `updateTemplateName` and
      `updateTemplateRefType`: the first template with the id gets the edit,
      and nothing else changes; an unknown id calls no setter. */
  function UpdateTemplate(templates: seq<PromptTemplate>, id: string, edit: Edit): (r: Option<seq<PromptTemplate>>)
    ensures r.None? <==> IndexOf(templates, id).None?
    ensures r.Some? ==> var i := IndexOf(templates, id).value;
                        && |r.value| == |templates|
                        && r.value[i].id == id
                        && (edit.SetPrompt? ==> r.value[i] == templates[i].(prompt := edit.prompt))
                        && (edit.SetName? ==> r.value[i] == templates[i].(name := edit.name))
                        && (edit.SetRefType? ==> r.value[i] == templates[i].(refType := edit.refType))
                        && forall j :: 0 <= j < |templates| && j != i ==> r.value[j] == templates[j]
  {
    match IndexOf(templates, id)
    case None => None
    case Some(i) => Some(templates[i := edit.Apply(templates[i])])
  }

  /** `removeTemplate`: splice out the first template with the id. */
  function RemoveTemplate(templates: seq<PromptTemplate>, id: string): (r: Option<seq<PromptTemplate>>)
    ensures r.None? <==> IndexOf(templates, id).None?
    ensures r.Some? ==> var i := IndexOf(templates, id).value;
                        |r.value| == |templates| - 1 &&
                        (forall j :: 0 <= j < i ==> r.value[j] == templates[j]) &&
                        (forall j :: i <= j < |r.value| ==> r.value[j] == templates[j + 1])
  {
    match IndexOf(templates, id)
    case None => None
    case Some(i) => Some(templates[..i] + templates[i + 1..])
  }

  /** `addPromptTemplate`: a new template with the localized default name,
      an empty prompt and the whole-context reference type. The id is
      whatever the constructor generates, so it is a parameter. */
  function AddPromptTemplate(templates: seq<PromptTemplate>, freshId: string, defaultName: string): (r: seq<PromptTemplate>)
    ensures |r| == |templates| + 1 && r[..|templates|] == templates
    ensures r[|templates|] == PromptTemplate(freshId, defaultName, "", All)
  {
    templates + [PromptTemplate(freshId, defaultName, "", All)]
  }

  /** The ids of a template list. */
  function Ids(templates: seq<PromptTemplate>): seq<string> {
    Map((t: PromptTemplate) => t.id, templates)
  }

  /** No field edit changes the list of ids, so later edits find the same
      template. */
  lemma EditsKeepIds(templates: seq<PromptTemplate>, id: string, edit: Edit)
    ensures UpdateTemplate(templates, id, edit).Some? ==> Ids(UpdateTemplate(templates, id, edit).value) == Ids(templates)
  {
  }

  /** Making the same edit twice is making it once. */
  lemma UpdateIdempotent(templates: seq<PromptTemplate>, id: string, edit: Edit)
    requires UpdateTemplate(templates, id, edit).Some?
    ensures UpdateTemplate(UpdateTemplate(templates, id, edit).value, id, edit) == UpdateTemplate(templates, id, edit)
  {
    var t1 := UpdateTemplate(templates, id, edit).value;
    EditsKeepIds(templates, id, edit);
    SameIdsSameIndex(templates, t1, id);
    var i := IndexOf(templates, id).value;
    assert edit.Apply(t1[i]) == t1[i];
    assert t1[i := edit.Apply(t1[i])] == t1;
  }

  /** The index of an id is the first position holding it. */
  lemma IndexIsFirst(templates: seq<PromptTemplate>, id: string, i: nat)
    requires i < |templates| && templates[i].id == id
    requires forall j :: 0 <= j < i ==> templates[j].id != id
    ensures IndexOf(templates, id) == Some(i)
  {
    var r := IndexOf(templates, id);
    assert r.Some?;
    assert templates[r.value].id == id;
  }

  /** Lists with the same ids agree on the index of every id. */
  lemma SameIdsSameIndex(a: seq<PromptTemplate>, b: seq<PromptTemplate>, id: string)
    requires Ids(a) == Ids(b)
    ensures IndexOf(a, id) == IndexOf(b, id)
  {
    assert |a| == |Ids(a)| == |b|;
    forall j | 0 <= j < |a|
      ensures a[j].id == b[j].id
    {
      assert Ids(a)[j] == a[j].id && Ids(b)[j] == b[j].id;
    }
    if IndexOf(a, id).Some? {
      IndexIsFirst(b, id, IndexOf(a, id).value);
    }
  }

  /** Removing the template just added gives back the list, when its id is
      fresh. */
  lemma AddThenRemove(templates: seq<PromptTemplate>, freshId: string, defaultName: string)
    requires forall j :: 0 <= j < |templates| ==> templates[j].id != freshId
    ensures RemoveTemplate(AddPromptTemplate(templates, freshId, defaultName), freshId) == Some(templates)
  {
    var t := AddPromptTemplate(templates, freshId, defaultName);
    IndexIsFirst(t, freshId, |templates|);
    assert t[..|templates|] + t[|templates| + 1..] == templates;
  }
}
