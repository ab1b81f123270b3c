/** The Gemini adapter of src/utils/google_api.ts: the first two messages
    are folded into one user message, every message but the last becomes
    chat history, and the last one's content is sent as the new message. */
module GoogleApi {
  import opened Wrappers
  import opened Seqs
  import opened Messages
  import opened Config
  import opened CallContract
  import opened Outgoing

  /** One text part of a history entry. */
  datatype Part = Part(text: string)

  /** One history entry, the SDK's `Content`. */
  datatype HistoryEntry = HistoryEntry(role: string, parts: seq<Part>)

  /** The chat the adapter starts and the message it sends. */
  datatype GeminiRequest = GeminiRequest(model: string, history: seq<HistoryEntry>, maxOutputTokens: real,
                                         temperature: real, message: string)

  /** What one call does: the request it makes, if it gets that far, and the
      callbacks it delivers. */
  datatype GeminiRun = GeminiRun(request: Option<GeminiRequest>, events: seq<StreamEvent>)

  /** Assistant turns are the model's; everything else is the user's. */
  function GeminiRole(r: Role): string {
    if r == Assistant then "model" else "user"
  }

  function ToEntry(m: Message): HistoryEntry {
    HistoryEntry(GeminiRole(m.role), [Part(m.content)])
  }

  /** Each prepared entry comes from a sendable message of `ms` and has a
      Gemini role and one non-empty text part. */
  lemma EntriesFromSendable(ms: seq<Message>)
    ensures forall e :: e in Prepare(ms, ToEntry) ==> exists j :: 0 <= j < |ms| && Sendable(ms[j]) && e == ToEntry(ms[j])
    ensures forall e :: e in Prepare(ms, ToEntry) ==>
              (e.role == "model" || e.role == "user") && |e.parts| == 1 && e.parts[0].text != ""
  {
    PrepareKeepsExactlySendable(ms, ToEntry);
    forall e | e in Prepare(ms, ToEntry)
      ensures exists j :: 0 <= j < |ms| && Sendable(ms[j]) && e == ToEntry(ms[j])
    {
      var m :| m in ms && Sendable(m) && e == ToEntry(m);
      var j :| 0 <= j < |ms| && ms[j] == m;
    }
  }

  /** `prepareHistory`: the sendable messages before the last one, each as
      a "model" or "user" entry with one non-empty text part. */
  function PrepareHistory(ms: seq<Message>): (r: seq<HistoryEntry>)
    ensures |ms| == 0 ==> r == []
    ensures |ms| > 0 ==> |r| <= |ms| - 1
    ensures |ms| > 0 && (forall i :: 0 <= i < |ms| - 1 ==> Sendable(ms[i])) ==> |r| == |ms| - 1
    ensures forall e :: e in r ==> exists j :: 0 <= j < |ms| - 1 && Sendable(ms[j]) && e == ToEntry(ms[j])
    ensures forall e :: e in r ==> (e.role == "model" || e.role == "user") && |e.parts| == 1 && e.parts[0].text != ""
  {
    if |ms| == 0 then []
    else
      var before := ms[..|ms| - 1];
      PrepareKeepsExactlySendable(before, ToEntry);
      EntriesFromSendable(before);
      Prepare(before, ToEntry)
  }

  /** The history does not depend on the message being sent, and grows
      by exactly the previous last message once a new one is appended. */
  lemma HistoryIgnoresLast(ms: seq<Message>, m: Message, m2: Message)
    ensures PrepareHistory(ms + [m]) == PrepareHistory(ms + [m2]) == Prepare(ms, ToEntry)
    ensures |ms| > 0 ==> PrepareHistory(ms + [m]) == PrepareHistory(ms) + Prepare([ms[|ms| - 1]], ToEntry)
  {
    assert (ms + [m])[..|ms|] == ms;
    assert (ms + [m2])[..|ms|] == ms;
    if |ms| > 0 {
      assert ms == ms[..|ms| - 1] + [ms[|ms| - 1]];
      PrepareConcat(ms[..|ms| - 1], [ms[|ms| - 1]], ToEntry);
    }
  }

  /** `callGemini`, with the stream's chunks and any failure as inputs.
      With no messages, reading the last one throws, and the handler reports
      the error text `thrown`. */
  function CallGemini(model: Model, temperature: real, ms: seq<Message>,
                      chunks: seq<string>, failure: Option<string>, thrown: string): (r: GeminiRun)
    ensures |ms| == 0 <==> r.request.None?
    ensures |ms| == 0 ==> r.events == [Finish(thrown)]
    ensures r.request.Some? ==>
              var req := r.request.value;
              var merged := MergeFirstTwo(ms);
              && req.model == model.name && req.temperature == temperature
              && req.maxOutputTokens * 2.0 == model.maxOutput as real
              && req.history == PrepareHistory(merged)
              && req.message == merged[|merged| - 1].content
              && r.events == seq(|chunks|, i requires 0 <= i < |chunks| => Content(chunks[i])) + [Finish(failure.GetOr(""))]
    ensures WellFormedStream(r.events)
  {
    var merged := MergeFirstTwo(ms);
    if |merged| == 0 then GeminiRun(None, [Finish(thrown)])
    else
      var req := GeminiRequest(model.name, PrepareHistory(merged), model.maxOutput as real / 2.0, temperature,
                               merged[|merged| - 1].content);
      GeminiRun(Some(req), seq(|chunks|, i requires 0 <= i < |chunks| => Content(chunks[i])) + [Finish(failure.GetOr(""))])
  }

  /** What a parameter of `callGemini` can hold at the chat session's call
      site: a message list, a number, one of the session's two callbacks, or
      `undefined` for a missing argument. */
  datatype Arg = MessageList(ms: seq<Message>) | Number(value: real) | ContentCallback | FinishCallback | Undefined

  /** The parameter at position `i` once `args` are bound in order; a
      parameter past the last argument is `undefined`. */
  function Param(args: seq<Arg>, i: nat): (r: Arg)
    ensures i < |args| ==> r == args[i]
    ensures i >= |args| ==> r == Undefined
  {
    if i < |args| then args[i] else Undefined
  }

  /** The callback `cb` called with `text`: the session's content callback
      delivers a content event, its finish callback a finish event. Calling
      anything else throws and delivers nothing. */
  function Invoke(cb: Arg, text: string): (r: seq<StreamEvent>)
    ensures cb == ContentCallback ==> r == [Content(text)]
    ensures cb == FinishCallback ==> r == [Finish(text)]
    ensures cb != ContentCallback && cb != FinishCallback ==> r == []
  {
    match cb
    case ContentCallback => [Content(text)]
    case FinishCallback => [Finish(text)]
    case _ => []
  }

  /** The stream loop and what follows it: each chunk goes to `onContent`,
      then `onFinish` gets `ending`. When `onContent` cannot be called the
      handler calls `onFinish` with the thrown text instead; when
      `onFinish` cannot be called, the handler's own call throws too. */
  function Stream(onContent: Arg, onFinish: Arg, chunks: seq<string>, ending: string, thrown: string): (r: seq<StreamEvent>)
    ensures |chunks| == 0 ==> r == Invoke(onFinish, ending)
    decreases |chunks|
  {
    if |chunks| == 0 then Invoke(onFinish, ending)
    else if onContent != ContentCallback && onContent != FinishCallback then Invoke(onFinish, thrown)
    else Invoke(onContent, chunks[0]) + Stream(onContent, onFinish, chunks[1..], ending, thrown)
  }

  /** With the two callbacks where the adapter declares them, the stream
      delivers every chunk in order and then the ending. */
  lemma {:induction false} StreamWithCallbacks(chunks: seq<string>, ending: string, thrown: string)
    ensures Stream(ContentCallback, FinishCallback, chunks, ending, thrown)
            == seq(|chunks|, i requires 0 <= i < |chunks| => Content(chunks[i])) + [Finish(ending)]
  {
    if |chunks| > 0 {
      StreamWithCallbacks(chunks[1..], ending, thrown);
      var contents := seq(|chunks|, i requires 0 <= i < |chunks| => Content(chunks[i]));
      var rest := seq(|chunks| - 1, i requires 0 <= i < |chunks| - 1 => Content(chunks[1..][i]));
      assert contents == [Content(chunks[0])] + rest;
    }
  }

  /** The callbacks `callGemini` delivers for its parameters after `apiKey`
      and `model` (temperature, messages, onContent, onFinish), bound from
      `args`. A `messages` that is not a list makes the adapter throw before
      the stream: a function's `length` is its arity, so the merge is
      skipped and `prepareHistory` calls `slice` on it. An empty list throws
      on reading its last message. Either way the handler calls `onFinish`
      with the thrown text. The temperature only reaches the request. */
  function CallGeminiWith(args: seq<Arg>, chunks: seq<string>, failure: Option<string>, thrown: string): (r: seq<StreamEvent>)
    ensures !Param(args, 1).MessageList? ==> r == Invoke(Param(args, 3), thrown)
  {
    var messages := Param(args, 1);
    if !messages.MessageList? || |messages.ms| == 0 then Invoke(Param(args, 3), thrown)
    else Stream(Param(args, 2), Param(args, 3), chunks, failure.GetOr(""), thrown)
  }

  /** Bound as declared, the adapter delivers exactly the callbacks of
      `CallGemini`. */
  lemma DeclaredBinding(model: Model, temperature: real, ms: seq<Message>,
                        chunks: seq<string>, failure: Option<string>, thrown: string)
    ensures CallGeminiWith([Number(temperature), MessageList(ms), ContentCallback, FinishCallback], chunks, failure, thrown)
            == CallGemini(model, temperature, ms, chunks, failure, thrown).events
  {
    StreamWithCallbacks(chunks, failure.GetOr(""), thrown);
  }

  /** The question the user just asked is what Gemini is sent, never part of
      its history: for a session's list (system prompt, earlier turns, the
      question) with at least one earlier turn, the sent message is the
      question's content. */
  lemma SendsTheQuestion(system: Message, turns: seq<Message>, question: Message,
                         model: Model, temperature: real, chunks: seq<string>, failure: Option<string>, thrown: string)
    requires |turns| > 0
    ensures var r := CallGemini(model, temperature, [system] + turns + [question], chunks, failure, thrown);
            r.request.Some? && r.request.value.message == question.content
  {
    var ms := [system] + turns + [question];
    var merged := MergeFirstTwo(ms);
    assert merged[|merged| - 1] == ms[|ms| - 1];
  }
}
