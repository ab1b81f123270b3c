/** The reference box component of src/components/references.tsx, whose
    list lives in the parent and changes only through `setReferences`.
    A call of that setter is modelled as `Some(newList)`, no call as `None`. */
module ReferenceBox {
  import opened Wrappers
  import opened Seqs
  import opened Messages
  import ReferenceCore

  /** The setter call an add makes (if any) and the reference it returns. */
  datatype Outcome = Outcome(setCall: Option<seq<Reference>>, returned: Option<Reference>)

  /** `addPageToReference`: the duplicate test counts matching entries with
      `filter(...).length === 0`. */
  function AddPageToReference(references: seq<Reference>, captured: Option<Reference>): (r: Outcome)
    ensures r.returned == captured
    ensures r.setCall == ReferenceCore.AddPage(references, captured).update
  {
    match captured
    case None => Outcome(None, None)
    case Some(page) =>
      var same := Filter((x: Reference) => x.kind == Webpage && x.url == page.url, references);
      FilterEmpty((x: Reference) => x.kind == Webpage && x.url == page.url, references);
      if |same| == 0 then Outcome(Some(references + [page]), captured)
      else Outcome(None, captured)
  }

  /** `addSelectionToReference`. */
  function AddSelectionToReference(references: seq<Reference>, captured: Option<Reference>): (r: Outcome)
    ensures r.returned == captured
    ensures r.setCall == ReferenceCore.AddSelection(references, captured).update
  {
    if captured.Some? then Outcome(Some(references + [captured.value]), captured)
    else Outcome(None, None)
  }

  /** The list `removeReference` passes to the setter. */
  function RemoveReference(references: seq<Reference>, id: string): (r: seq<Reference>)
    ensures forall x :: x in r <==> x in references && x.id != id
    ensures r == ReferenceCore.Remove(references, id)
  {
    Filter((x: Reference) => x.id != id, references)
  }

  /** The list `clearReferences` passes to the setter. */
  function ClearReferences(): (r: seq<Reference>)
    ensures r == ReferenceCore.Clear()
  {
    []
  }

  /** Display width of one character: 2 above 0x7f, 1 otherwise. */
  function CharCost(c: char): nat {
    if c as int > 0x7f then 2 else 1
  }

  /** Display width of a string. */
  function Cost(s: string): nat
    decreases |s|
  {
    if |s| == 0 then 0 else Cost(s[..|s| - 1]) + CharCost(s[|s| - 1])
  }

  /** The width of a prefix grows with its length. */
  lemma {:induction false} CostMonotone(s: string, i: nat, j: nat)
    requires i <= j <= |s|
    ensures Cost(s[..i]) <= Cost(s[..j])
    decreases j - i
  {
    if i < j {
      CostMonotone(s, i, j - 1);
      assert s[..j][..j - 1] == s[..j - 1];
    }
  }

  /** The default width limit of `ellipse`. */
  const DefaultEllipseLimit: int := 70

  /** `ellipse`: the text itself when it fits in `limit`, otherwise the
      longest prefix that fits followed by "...". */
  method Ellipse(text: string, limit: int := DefaultEllipseLimit) returns (r: string)
    ensures Cost(text) <= limit || text == [] ==> r == text
    ensures Cost(text) > limit && text != [] ==>
              |r| >= 3 && r[|r| - 3..] == "..." &&
              var k := |r| - 3;
              k < |text| && r[..k] == text[..k] &&
              (k > 0 ==> Cost(text[..k]) <= limit) &&
              forall j :: k < j <= |text| ==> Cost(text[..j]) > limit
  {
    var ret := "";
    var cost := 0;
    var i := 0;
    while i < |text|
      invariant 0 <= i <= |text|
      invariant ret == text[..i]
      invariant cost == Cost(text[..i])
      invariant i > 0 ==> cost <= limit
    {
      assert text[..i + 1][..i] == text[..i];
      cost := cost + CharCost(text[i]);
      if cost > limit {
        r := ret + "...";
        assert r[..i] == text[..i];
        forall j | i < j <= |text| ensures Cost(text[..j]) > limit {
          CostMonotone(text, i + 1, j);
        }
        return;
      }
      ret := ret + [text[i]];
      i := i + 1;
    }
    assert text[..i] == text;
    r := ret;
  }
}
