/** The callback protocol every provider adapter follows: zero or more
    `onContent(text)` calls, then one `onFinish(error)` call, where an empty
    error string means success. */
module CallContract {

  datatype StreamEvent = Content(text: string) | Finish(error: string)

  /** Content events only, then exactly one finish event at the end. */
  predicate WellFormedStream(events: seq<StreamEvent>) {
    && |events| > 0
    && events[|events| - 1].Finish?
    && forall i :: 0 <= i < |events| - 1 ==> events[i].Content?
  }
}
