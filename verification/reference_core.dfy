/** The reference-list logic that src/logic/reference_state.ts,
    src/logic/reference_store.tsx and src/components/references.tsx each
    implement: add the captured page unless a web page with its url is
    already listed, add a selection unconditionally, remove by id, clear.
    Each of those files is modelled in its own module and proved to agree
    with this one. */
module ReferenceCore {
  import opened Wrappers
  import opened Seqs
  import opened Messages

  /** `r.type === "webpage" && r.url === url`, the deduplication test. */
  predicate IsWebpageFor(r: Reference, url: string) {
    r.kind == Webpage && r.url == url
  }

  predicate HasWebpage(refs: seq<Reference>, url: string) {
    exists i :: 0 <= i < |refs| && IsWebpageFor(refs[i], url)
  }

  /** At most one web-page reference per url. */
  predicate UniqueWebpages(refs: seq<Reference>) {
    forall i, j :: 0 <= i < j < |refs| && refs[i].kind == Webpage && refs[j].kind == Webpage ==> refs[i].url != refs[j].url
  }

  /** What an add operation does: the list it writes, if it writes one, and
      the reference it hands back to its caller (`null` is `None`). */
  datatype AddOutcome = AddOutcome(update: Option<seq<Reference>>, returned: Option<Reference>) {
    /** The reference list after the operation. */
    function After(refs: seq<Reference>): seq<Reference> {
      update.GetOr(refs)
    }
  }

  /** Adds the captured page (`None` when capture failed). */
  function AddPage(refs: seq<Reference>, captured: Option<Reference>): (r: AddOutcome)
    ensures r.returned == captured
    ensures r.update.Some? <==> captured.Some? && !HasWebpage(refs, captured.value.url)
    ensures r.update.Some? ==> r.update.value == refs + [captured.value]
  {
    match captured
    case None => AddOutcome(None, None)
    case Some(page) =>
      if HasWebpage(refs, page.url) then AddOutcome(None, captured)
      else AddOutcome(Some(refs + [page]), captured)
  }

  /** Adds the captured selection (`None` when capture failed); never
      deduplicates. */
  function AddSelection(refs: seq<Reference>, captured: Option<Reference>): (r: AddOutcome)
    ensures r.returned == captured
    ensures r.update.Some? <==> captured.Some?
    ensures captured.Some? ==> |r.After(refs)| == |refs| + 1 && r.After(refs)[..|refs|] == refs
  {
    match captured
    case None => AddOutcome(None, None)
    case Some(sel) => AddOutcome(Some(refs + [sel]), captured)
  }

  /** Keeps the entries whose id differs from `id`. */
  function Remove(refs: seq<Reference>, id: string): (r: seq<Reference>)
    ensures forall x :: x in r <==> x in refs && x.id != id
    ensures |r| <= |refs|
  {
    Filter((x: Reference) => x.id != id, refs)
  }

  function Clear(): seq<Reference> {
    []
  }

  /** A failed capture changes nothing and returns nothing. */
  lemma AddPageFailed(refs: seq<Reference>)
    ensures AddPage(refs, None) == AddOutcome(None, None)
  {
  }

  /** Adding the same page twice leaves the list as after the first add. */
  lemma AddPageTwice(refs: seq<Reference>, page: Reference)
    requires page.kind == Webpage
    ensures var once := AddPage(refs, Some(page)).After(refs);
            AddPage(once, Some(page)).After(once) == once
  {
    var once := AddPage(refs, Some(page)).After(refs);
    if !HasWebpage(refs, page.url) {
      assert IsWebpageFor(once[|refs|], page.url);
    }
  }

  /** Prepending keeps the invariant exactly when the new head does not
      clash with a web page of the tail. */
  lemma {:induction false} UniqueCons(x: Reference, t: seq<Reference>)
    ensures UniqueWebpages([x] + t) <==> UniqueWebpages(t) && (x.kind == Webpage ==> !HasWebpage(t, x.url))
  {
    var s := [x] + t;
    assert s[1..] == t;
    if UniqueWebpages(s) {
      forall i, j | 0 <= i < j < |t| && t[i].kind == Webpage && t[j].kind == Webpage
        ensures t[i].url != t[j].url
      {
        assert s[i + 1] == t[i] && s[j + 1] == t[j];
      }
      if x.kind == Webpage {
        forall i | 0 <= i < |t| ensures !IsWebpageFor(t[i], x.url) {
          assert s[0] == x && s[i + 1] == t[i];
          if t[i].kind == Webpage {
            assert s[0].url != s[i + 1].url;
          }
        }
      }
    }
    if UniqueWebpages(t) && (x.kind == Webpage ==> !HasWebpage(t, x.url)) {
      forall i, j | 0 <= i < j < |s| && s[i].kind == Webpage && s[j].kind == Webpage
        ensures s[i].url != s[j].url
      {
        if i == 0 {
          assert s[j] == t[j - 1];
          assert !IsWebpageFor(t[j - 1], x.url);
        } else {
          assert s[i] == t[i - 1] && s[j] == t[j - 1];
        }
      }
    }
  }

  /** Appending keeps the invariant when the new element is not a web page
      whose url is already listed. */
  lemma UniqueSnoc(refs: seq<Reference>, x: Reference)
    requires UniqueWebpages(refs)
    requires x.kind == Webpage ==> !HasWebpage(refs, x.url)
    ensures UniqueWebpages(refs + [x])
  {
    var s := refs + [x];
    forall i, j | 0 <= i < j < |s| && s[i].kind == Webpage && s[j].kind == Webpage
      ensures s[i].url != s[j].url
    {
      if j == |refs| {
        assert !IsWebpageFor(refs[i], x.url);
      }
    }
  }

  /** Removing elements keeps the invariant. */
  lemma {:induction false} FilterKeepsUnique(p: Reference -> bool, refs: seq<Reference>)
    requires UniqueWebpages(refs)
    ensures UniqueWebpages(Filter(p, refs))
    decreases |refs|
  {
    if |refs| > 0 {
      var x, t := refs[0], refs[1..];
      assert refs == [x] + t;
      UniqueCons(x, t);
      FilterKeepsUnique(p, t);
      if p(x) {
        var ft := Filter(p, t);
        assert Filter(p, refs) == [x] + ft;
        if x.kind == Webpage {
          forall i | 0 <= i < |ft| ensures !IsWebpageFor(ft[i], x.url) {
            assert ft[i] in t;
            var k :| 0 <= k < |t| && t[k] == ft[i];
          }
        }
        UniqueCons(x, ft);
      } else {
        assert Filter(p, refs) == Filter(p, t);
      }
    }
  }

  /** `AddPage`, `Remove` and `Clear` keep at most one web page per url. */
  lemma MutationsKeepUnique(refs: seq<Reference>, captured: Option<Reference>, id: string)
    requires UniqueWebpages(refs)
    ensures UniqueWebpages(AddPage(refs, captured).After(refs))
    ensures UniqueWebpages(Remove(refs, id))
    ensures UniqueWebpages(Clear())
  {
    if captured.Some? && !HasWebpage(refs, captured.value.url) {
      UniqueSnoc(refs, captured.value);
    }
    FilterKeepsUnique((x: Reference) => x.id != id, refs);
  }

  /** A selection keeps the invariant when it is a text reference, as the
      selection capture produces. */
  lemma AddSelectionKeepsUnique(refs: seq<Reference>, captured: Option<Reference>)
    requires UniqueWebpages(refs)
    requires captured.Some? ==> captured.value.kind == TextRef
    ensures UniqueWebpages(AddSelection(refs, captured).After(refs))
  {
    if captured.Some? {
      UniqueSnoc(refs, captured.value);
    }
  }

  /** Removing an id nobody has is a no-op. */
  lemma RemoveAbsent(refs: seq<Reference>, id: string)
    requires forall i :: 0 <= i < |refs| ==> refs[i].id != id
    ensures Remove(refs, id) == refs
  {
    FilterKeepsAll((x: Reference) => x.id != id, refs);
  }

  /** Removing a present id makes the list strictly shorter. */
  lemma RemovePresent(refs: seq<Reference>, id: string)
    requires exists i :: 0 <= i < |refs| && refs[i].id == id
    ensures |Remove(refs, id)| < |refs|
  {
    var p := (x: Reference) => x.id != id;
    FilterKeepsAll(p, refs);
  }

  /** Removal keeps the survivors' order: it distributes over any split of
      the list, and removing twice is removing once. */
  lemma RemoveOrder(a: seq<Reference>, b: seq<Reference>, id: string)
    ensures Remove(a + b, id) == Remove(a, id) + Remove(b, id)
    ensures Remove(Remove(a, id), id) == Remove(a, id)
  {
    FilterConcat((x: Reference) => x.id != id, a, b);
    FilterIdempotent((x: Reference) => x.id != id, a);
  }

  /** For references built by their constructor, the url test the code
      performs is the same as looking for the derived id `webpage:<url>`. */
  lemma DedupByUrlIsDedupById(refs: seq<Reference>, url: string)
    requires forall i :: 0 <= i < |refs| ==> WellFormed(refs[i])
    ensures HasWebpage(refs, url) <==> exists i :: 0 <= i < |refs| && refs[i].id == "webpage:" + url
  {
    var page := NewReference(Webpage, "", url, "");
    if exists i :: 0 <= i < |refs| && refs[i].id == "webpage:" + url {
      var i :| 0 <= i < |refs| && refs[i].id == "webpage:" + url;
      IdDetermines(refs[i], page);
      assert IsWebpageFor(refs[i], url);
    }
  }
}
