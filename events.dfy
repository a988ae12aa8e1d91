/**
  * The actions by which the stages are fed, started and torn down, recorded
  * in one log that every component taking part appends to. The order in
  * which start and stop act on the stages is read off this log.
  */
module Events {

  /** One action visible across the stages. */
  datatype Event =
    | QueueCleared(queue: object)   // `clear` on a queue
    | ItemOffered(queue: object)    // `put` / `offer` on a queue
    | RecorderStarted | RecorderStopped
    | RecognitionStarted | RecognitionStopped
    | TranslatorStarted | TranslatorInterrupted

  /** The shared log; it exists only for the proofs. */
  class EventLog {
    /** Every action so far, oldest first. */
    ghost var events: seq<Event>

    constructor ()
      ensures events == []
    {
      events := [];
    }
  }
}
