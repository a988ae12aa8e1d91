/**
  * The result callback the window hands to the recognition stage: it shows a
  * transcript in the original-text area and offers it to the text queue, and
  * drops results that are null or empty. The Swing event thread runs these
  * updates one at a time in submission order, so arrival order is kept.
  */
module Transcripts {
  import opened Common
  import opened Queues
  import opened Events

  /** A recognition result that the callback passes on. */
  predicate Forwarded(result: Option<string>) {
    result.Some? && result.value != ""
  }

  class TranscriptCallback {
    /** The translation stage's input queue. */
    const textQueue: Channel<string>
    /** Lines of the original-text area, oldest first. */
    var shown: seq<string>

    constructor (textQueue: Channel<string>)
      ensures this.textQueue == textQueue && shown == []
    {
      this.textQueue := textQueue;
      shown := [];
    }

    /** `originalTextArea.setText("")`. */
    method ClearDisplay()
      modifies this
      ensures shown == []
    {
      shown := [];
    }

    /** `accept(result)`: forwards every non-null, non-empty result, in arrival order. */
    method Accept(result: Option<string>)
      modifies this, textQueue, textQueue.log
      ensures Forwarded(result) ==> shown == old(shown) + [result.value]
      ensures Forwarded(result) ==> textQueue.items == old(textQueue.items) + [result.value]
      ensures Forwarded(result) ==> textQueue.log.events == old(textQueue.log.events) + [ItemOffered(textQueue)]
      ensures !Forwarded(result) ==> shown == old(shown) && textQueue.items == old(textQueue.items)
      ensures !Forwarded(result) ==> textQueue.log.events == old(textQueue.log.events)
    {
      if result.Some? && result.value != "" {
        shown := shown + [result.value];
        textQueue.Put(result.value);
      }
    }
  }
}
