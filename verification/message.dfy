/** The conversation turn and the grounding reference (src/utils/message.ts). */
module Messages {

  datatype Role = System | User | Assistant

  /** One turn of a conversation; `model` names the model that produced an
      assistant turn and is empty otherwise. */
  datatype Message = Message(role: Role, content: string, model: string)

  /** The `Message` constructor, whose `model` argument defaults to "". */
  function NewMessage(role: Role, content: string, model: string := ""): (m: Message)
    ensures m.role == role && m.content == content && m.model == model
  {
    Message(role, content, model)
  }

  /** The idle chat status (CHAT_STATUS_EMPTY) and the in-flight one. */
  const StatusEmpty: string := ""
  const StatusProcessing: string := "processing"

  /** ReferenceType: "text" | "webpage". */
  datatype RefKind = TextRef | Webpage {
    function Name(): string {
      match this
      case TextRef => "text"
      case Webpage => "webpage"
    }
  }

  /** Grounding material; `id` is derived from the other fields by the
      constructor. */
  datatype Reference = Reference(id: string, kind: RefKind, title: string, url: string, content: string)

  /** The id the constructor derives: `${type}:${url}` for a web page and
      `${type}:${title}` otherwise. */
  function IdFor(kind: RefKind, title: string, url: string): string {
    if kind == Webpage then kind.Name() + ":" + url else kind.Name() + ":" + title
  }

  /** The `Reference` constructor. */
  function NewReference(kind: RefKind, title: string, url: string, content: string): (r: Reference)
    ensures r.kind == kind && r.title == title && r.url == url && r.content == content
    ensures kind == Webpage ==> r.id == "webpage:" + url
    ensures kind == TextRef ==> r.id == "text:" + title
    ensures WellFormed(r)
  {
    Reference(IdFor(kind, title, url), kind, title, url, content)
  }

  /** A reference whose id is the one its constructor would derive. */
  predicate WellFormed(r: Reference) {
    r.id == IdFor(r.kind, r.title, r.url)
  }

  /** Two web pages with the same url get the same id, whatever their title
      or content: the id is what makes the url-based deduplication work. */
  lemma SameUrlSameId(t1: string, c1: string, t2: string, c2: string, url: string)
    ensures NewReference(Webpage, t1, url, c1).id == NewReference(Webpage, t2, url, c2).id
  {
  }

  /** The id determines the kind, and for a web page the url (for a text
      reference, the title): a "webpage:" id never equals a "text:" one. */
  lemma IdDetermines(r1: Reference, r2: Reference)
    requires WellFormed(r1) && WellFormed(r2) && r1.id == r2.id
    ensures r1.kind == r2.kind
    ensures r1.kind == Webpage ==> r1.url == r2.url
    ensures r1.kind == TextRef ==> r1.title == r2.title
  {
    assert r1.id[0] == (if r1.kind == Webpage then 'w' else 't');
    assert r2.id[0] == (if r2.kind == Webpage then 'w' else 't');
    if r1.kind == r2.kind == Webpage {
      assert r1.url == r1.id[8..] && r2.url == r2.id[8..];
    } else if r1.kind == r2.kind {
      assert r1.title == r1.id[5..] && r2.title == r2.id[5..];
    }
  }
}
