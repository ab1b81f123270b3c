/** What every provider adapter does to the session's messages before a
    request: drop the empty and the `<error>` ones, and, for the providers
    that take no system role, fold the first two messages into one user
    message. */
module Outgoing {
  import opened Seqs
  import opened Text
  import opened Messages

  /** The role string a message carries. */
  function RoleName(r: Role): string {
    match r
    case System => "system"
    case User => "user"
    case Assistant => "assistant"
  }

  /** The content marker the adapters refuse to send. */
  const ErrorMarker: string := "<error>"

  /** `message.content && message.content.trim() != "<error>"`. */
  predicate Sendable(m: Message) {
    m.content != "" && Trim(m.content) != ErrorMarker
  }

  /** The list an adapter sends: the sendable messages, each converted by
      `wire`, in their original order. */
  function Prepare<U>(ms: seq<Message>, wire: Message -> U): (r: seq<U>)
    ensures |r| <= |ms|
  {
    Map(wire, Filter(Sendable, ms))
  }

  /** The adapters' loop over the messages, pushing the sendable ones. */
  method PrepareMessages<U>(ms: seq<Message>, wire: Message -> U) returns (out: seq<U>)
    ensures out == Prepare(ms, wire)
  {
    out := [];
    var i := 0;
    while i < |ms|
      invariant 0 <= i <= |ms|
      invariant out == Prepare(ms[..i], wire)
    {
      assert ms[..i + 1] == ms[..i] + [ms[i]];
      PrepareSnoc(ms[..i], ms[i], wire);
      if Sendable(ms[i]) {
        out := out + [wire(ms[i])];
      }
      i := i + 1;
    }
    assert ms[..i] == ms;
  }

  /** Appending one message appends its converted form exactly when it is
      sendable. */
  lemma PrepareSnoc<U>(a: seq<Message>, m: Message, wire: Message -> U)
    ensures Prepare(a + [m], wire) == Prepare(a, wire) + (if Sendable(m) then [wire(m)] else [])
  {
    FilterConcat(Sendable, a, [m]);
    var fa := Filter(Sendable, a);
    var fm := Filter(Sendable, [m]);
    assert fm == (if Sendable(m) then [m] else []);
    assert Map(wire, fa + fm) == Map(wire, fa) + Map(wire, fm);
  }

  /** Preparation works message by message: the list for `a + b` is the
      list for `a` followed by the list for `b`. */
  lemma PrepareConcat<U>(a: seq<Message>, b: seq<Message>, wire: Message -> U)
    ensures Prepare(a + b, wire) == Prepare(a, wire) + Prepare(b, wire)
  {
    FilterConcat(Sendable, a, b);
  }

  /** Nothing is dropped from a list of sendable messages, and nothing
      unsendable ever reaches the provider. */
  lemma PrepareKeepsExactlySendable<U>(ms: seq<Message>, wire: Message -> U)
    ensures (forall i :: 0 <= i < |ms| ==> Sendable(ms[i])) <==> |Prepare(ms, wire)| == |ms|
    ensures forall u :: u in Prepare(ms, wire) ==> exists m :: m in ms && Sendable(m) && u == wire(m)
  {
    FilterKeepsAll(Sendable, ms);
    var f := Filter(Sendable, ms);
    forall u | u in Prepare(ms, wire)
      ensures exists m :: m in ms && Sendable(m) && u == wire(m)
    {
      var k :| 0 <= k < |f| && Prepare(ms, wire)[k] == u;
      assert f[k] in f;
    }
  }

  /** The first two messages become one user message, joined by a blank
      line, when there are at least two. */
  function MergeFirstTwo(ms: seq<Message>): (r: seq<Message>)
    ensures |ms| > 1 ==> |r| == |ms| - 1 && r[0] == NewMessage(User, ms[0].content + "\n\n" + ms[1].content)
                         && r[1..] == ms[2..]
    ensures |ms| <= 1 ==> r == ms
  {
    if |ms| > 1 then [NewMessage(User, ms[0].content + "\n\n" + ms[1].content)] + ms[2..] else ms
  }
}
