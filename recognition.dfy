/**
  * SpeechToTextService: one streaming-recognition session. The first request
  * on the stream carries the configuration; a sender thread then drains the
  * audio queue onto the stream while `streaming` holds. Recognition responses
  * and stream errors come back through the observer callbacks.
  */
module Recognition {
  import opened Common
  import opened Queues
  import opened Transcripts
  import opened Events

  datatype AudioEncoding = ENCODING_UNSPECIFIED | LINEAR16 | FLAC | MULAW | AMR | AMR_WB | OGG_OPUS

  datatype RecognitionConfig = RecognitionConfig(encoding: AudioEncoding, sampleRateHertz: int, languageCode: string)

  datatype StreamingConfig = StreamingConfig(config: RecognitionConfig, interimResults: bool, singleUtterance: bool)

  /** A message on the outbound half of the stream. */
  datatype StreamRequest = ConfigRequest(streamingConfig: StreamingConfig) | AudioRequest(audioContent: Chunk)

  /** 16 kHz LINEAR16 English, final results only, continuous recognition. */
  const STREAMING_CONFIG := StreamingConfig(RecognitionConfig(LINEAR16, 16000, "en-US"), false, false)

  /** One result of a response; `transcripts` are its alternatives' transcripts, best first. */
  datatype RecognitionResult = RecognitionResult(isFinal: bool, transcripts: seq<string>)

  datatype RecognitionResponse = RecognitionResponse(results: seq<RecognitionResult>)

  /** What `onResponse` does with a response. */
  datatype ResponseOutcome =
    | Deliver(transcript: string)  // the callback receives the transcript
    | Skip                          // the first result is not final
    | OutOfBounds                   // `get(0)` on an empty results or alternatives list throws

  /**
    * Only the first result is consulted, and only a final one is delivered,
    * as its first alternative's transcript.
    */
  function ResponseOutcomeOf(response: RecognitionResponse): (o: ResponseOutcome)
    ensures o.Deliver? <==>
      |response.results| > 0 && response.results[0].isFinal && |response.results[0].transcripts| > 0
    ensures o.Deliver? ==> o.transcript == response.results[0].transcripts[0]
    ensures o.Skip? <==> |response.results| > 0 && !response.results[0].isFinal
  {
    if |response.results| == 0 then OutOfBounds
    else
      var result := response.results[0];
      if !result.isFinal then Skip
      else if |result.transcripts| == 0 then OutOfBounds
      else Deliver(result.transcripts[0])
  }

  /** Results after the first never influence what is delivered. */
  lemma OnlyFirstResultCounts(first: RecognitionResult, rest1: seq<RecognitionResult>, rest2: seq<RecognitionResult>)
    ensures ResponseOutcomeOf(RecognitionResponse([first] + rest1)) == ResponseOutcomeOf(RecognitionResponse([first] + rest2))
  {
  }

  /** `"ERROR: " + t.getMessage()`; Java renders a null message as "null". */
  function ErrorText(message: Option<string>): (r: string)
    ensures |r| >= 7 && r[..7] == "ERROR: "
    ensures Forwarded(Some(r))
  {
    "ERROR: " + message.GetOr("null")
  }

  /** The outbound half of the gRPC stream: what was sent, and how often `closeSend` was called. */
  class ClientStream {
    var sent: seq<StreamRequest>
    var closeSendCalls: nat

    constructor ()
      ensures sent == [] && closeSendCalls == 0
    {
      sent := [];
      closeSendCalls := 0;
    }

    method Send(request: StreamRequest)
      modifies this
      ensures sent == old(sent) + [request] && closeSendCalls == old(closeSendCalls)
    {
      sent := sent + [request];
    }

    method CloseSend()
      modifies this
      ensures sent == old(sent) && closeSendCalls == old(closeSendCalls) + 1
    {
      closeSendCalls := closeSendCalls + 1;
    }
  }

  /**
    * The sender thread as its loop sees it: the shared `streaming` flag,
    * whether it is blocked inside `take`, its interrupt status, whether it has
    * left, the audio queue, what the stream has received, how often
    * `closeSend` ran, and the chunks it took but did not send.
    */
  datatype SenderState = SenderState(
    streaming: bool, parked: bool, interrupted: bool, exited: bool,
    queue: seq<Chunk>, sent: seq<StreamRequest>, closes: nat, dropped: seq<Chunk>)

  /** Leaving the loop runs the `finally` block, which closes the send side. */
  function Leave(s: SenderState): SenderState {
    s.(exited := true, parked := false, closes := s.closes + 1)
  }

  /**
    * One scheduling turn of the sender. At the loop head a lowered flag ends
    * the loop. An interrupt makes a pending `take` throw. On an empty queue
    * the thread stays parked in `take`. A chunk taken after the flag went
    * down is dropped and the loop ends; otherwise it is sent.
    */
  function SenderStep(s: SenderState): SenderState {
    if s.exited then s
    else if !s.parked && !s.streaming then Leave(s)
    else if s.interrupted then Leave(s)
    else if s.queue == [] then s.(parked := true)
    else if !s.streaming then Leave(s).(queue := s.queue[1..], dropped := s.dropped + [s.queue[0]])
    else s.(parked := false, queue := s.queue[1..], sent := s.sent + [AudioRequest(s.queue[0])])
  }

  /** The sender given `turns` scheduling turns. */
  function SenderRun(s: SenderState, turns: nat): SenderState
    decreases turns
  {
    if turns == 0 then s else SenderRun(SenderStep(s), turns - 1)
  }

  /** The audio carried by the audio requests among `requests`, in order. */
  function AudioOf(requests: seq<StreamRequest>): seq<Chunk>
    decreases |requests|
  {
    if requests == [] then []
    else AudioOf(requests[..|requests| - 1])
         + (if requests[|requests| - 1].AudioRequest? then [requests[|requests| - 1].audioContent] else [])
  }

  /** One audio request per chunk, in queue order. */
  function AudioRequests(chunks: seq<Chunk>): (r: seq<StreamRequest>)
    ensures |r| == |chunks|
    decreases |chunks|
  {
    if chunks == [] then [] else [AudioRequest(chunks[0])] + AudioRequests(chunks[1..])
  }

  lemma {:induction false} AudioOfPrepend(x: StreamRequest, rest: seq<StreamRequest>)
    ensures AudioOf([x] + rest) == AudioOf([x]) + AudioOf(rest)
    decreases |rest|
  {
    if rest == [] {
      assert [x] + rest == [x];
    } else {
      var init := rest[..|rest| - 1];
      assert ([x] + rest)[..|[x] + rest| - 1] == [x] + init;
      AudioOfPrepend(x, init);
    }
  }

  /** Wrapping chunks in audio requests and reading the audio back gives the same chunks, in order. */
  lemma {:induction false} AudioRequestsRoundTrip(chunks: seq<Chunk>)
    ensures AudioOf(AudioRequests(chunks)) == chunks
    decreases |chunks|
  {
    if chunks != [] {
      var x := AudioRequest(chunks[0]);
      AudioOfPrepend(x, AudioRequests(chunks[1..]));
      AudioRequestsRoundTrip(chunks[1..]);
      assert [x][..0] == [];
      assert chunks == [chunks[0]] + chunks[1..];
    }
  }

  lemma {:induction false} SenderExitedStays(s: SenderState, turns: nat)
    requires s.exited
    ensures SenderRun(s, turns) == s
    decreases turns
  {
    if turns > 0 {
      SenderExitedStays(SenderStep(s), turns - 1);
    }
  }

  /** One turn moves at most one chunk from the queue, to the stream or (when leaving) to the dropped ones. */
  lemma SenderStepConserves(s: SenderState)
    requires s.exited || s.dropped == []
    ensures var n := SenderStep(s);
      AudioOf(n.sent) + n.dropped + n.queue == AudioOf(s.sent) + s.dropped + s.queue
    ensures var n := SenderStep(s);
      (n.exited || n.dropped == []) && s.dropped <= n.dropped
      && (n.dropped == s.dropped || (!s.exited && n.exited && |n.dropped| == |s.dropped| + 1))
  {
    var n := SenderStep(s);
    if !s.exited && s.queue != [] && (s.parked || s.streaming) && !s.interrupted {
      var x := s.queue[0];
      assert s.queue == [x] + n.queue;
      if s.streaming {
        assert n.sent[..|n.sent| - 1] == s.sent;
        assert AudioOf(n.sent) == AudioOf(s.sent) + [x];
        assert s.dropped == [];
      } else {
        assert (s.dropped + [x]) + n.queue == s.dropped + ([x] + n.queue);
      }
    }
  }

  /**
    * Every chunk leaves the queue in FIFO order and is either sent or, at
    * most once and only on the way out, dropped: the sent audio, the dropped
    * chunks and the queue together are what they were before. (A running
    * sender has dropped nothing yet.)
    */
  lemma {:induction false} SenderConservesChunks(s: SenderState, turns: nat)
    requires s.exited || s.dropped == []
    ensures var r := SenderRun(s, turns);
      AudioOf(r.sent) + r.dropped + r.queue == AudioOf(s.sent) + s.dropped + s.queue
    ensures var r := SenderRun(s, turns);
      s.dropped <= r.dropped && |r.dropped| <= |s.dropped| + (if s.exited then 0 else 1)
    decreases turns
  {
    if turns > 0 {
      var next := SenderStep(s);
      SenderStepConserves(s);
      SenderConservesChunks(next, turns - 1);
    }
  }

  /** Once `streaming` is false, nothing more is sent. */
  lemma {:induction false} SenderSilentAfterFlagDrop(s: SenderState, turns: nat)
    requires !s.streaming
    ensures SenderRun(s, turns).sent == s.sent
    decreases turns
  {
    if turns > 0 {
      SenderSilentAfterFlagDrop(SenderStep(s), turns - 1);
    }
  }

  /** `closeSend` runs exactly once, when the loop is left, however it is left. */
  lemma {:induction false} CloseSendOnceOnExit(s: SenderState, turns: nat)
    ensures var r := SenderRun(s, turns);
      (s.exited ==> r.exited) && r.closes == s.closes + (if r.exited && !s.exited then 1 else 0)
    decreases turns
  {
    if turns > 0 {
      var next := SenderStep(s);
      CloseSendOnceOnExit(next, turns - 1);
      if next.exited && !s.exited {
        SenderExitedStays(next, turns - 1);
      }
    }
  }

  /**
    * The sender only appends audio requests and never changes the flag or its
    * interrupt status; so the configuration request sent at start stays first.
    */
  lemma {:induction false} SenderAppendsOnlyAudio(s: SenderState, turns: nat)
    ensures var r := SenderRun(s, turns);
      s.sent <= r.sent && forall k :: |s.sent| <= k < |r.sent| ==> r.sent[k].AudioRequest?
    ensures var r := SenderRun(s, turns);
      r.streaming == s.streaming && r.interrupted == s.interrupted
    decreases turns
  {
    if turns > 0 {
      SenderAppendsOnlyAudio(SenderStep(s), turns - 1);
    }
  }

  /** One turn of a streaming, uninterrupted sender with a chunk queued sends that chunk. */
  lemma SenderSendsHead(s: SenderState)
    requires s.streaming && !s.interrupted && !s.exited && s.queue != []
    ensures var n := SenderStep(s);
      n.streaming && !n.interrupted && !n.exited && n.queue == s.queue[1..] && n.dropped == s.dropped
      && n.sent == s.sent + [AudioRequest(s.queue[0])]
      && AudioRequests(s.queue) == [AudioRequest(s.queue[0])] + AudioRequests(n.queue)
  {
  }

  /**
    * While streaming and not interrupted, one turn per queued chunk sends the
    * whole queue, in order, and the thread is still running.
    */
  lemma {:induction false} SenderDrainsQueue(s: SenderState)
    requires s.streaming && !s.interrupted && !s.exited
    ensures var r := SenderRun(s, |s.queue|);
      r.queue == [] && r.sent == s.sent + AudioRequests(s.queue) && !r.exited && r.dropped == s.dropped
    decreases |s.queue|
  {
    if s.queue != [] {
      var next := SenderStep(s);
      SenderSendsHead(s);
      SenderDrainsQueue(next);
      assert s.sent + AudioRequests(s.queue) == next.sent + AudioRequests(next.queue);
    } else {
      assert s.sent + [] == s.sent;
    }
  }

  class SpeechToTextService {
    /** `streaming`, shared by the starter, the sender thread and the observer callbacks. */
    var streaming: bool
    var callback: TranscriptCallback?
    var audioQueue: Channel?<Chunk>
    var stream: ClientStream?
    /** `audioSenderThread != null`. */
    var senderStarted: bool
    /** The sender thread is blocked inside `take`. */
    var senderParked: bool
    /** The sender thread's interrupt status. */
    var senderInterrupted: bool
    /** The sender thread has left its loop (or none is running). */
    var senderExited: bool
    /** Chunks the sender took from the queue after the flag went down. */
    ghost var dropped: seq<Chunk>
    /** Where starting and stopping the session are recorded. */
    const log: EventLog

    constructor (log: EventLog)
      ensures !streaming && callback == null && audioQueue == null && stream == null
      ensures !senderStarted && senderExited && this.log == log
    {
      this.log := log;
      streaming := false;
      callback, audioQueue, stream := null, null, null;
      senderStarted, senderParked, senderInterrupted, senderExited := false, false, false, true;
      dropped := [];
    }

    ghost function SenderSnapshot(): SenderState
      requires stream != null && audioQueue != null
      reads this, stream, audioQueue
    {
      SenderState(streaming, senderParked, senderInterrupted, senderExited,
                  audioQueue.items, stream.sent, stream.closeSendCalls, dropped)
    }

    /**
      * `startStreamingRecognize`: rejected while streaming, leaving everything
      * as it was. Otherwise keeps the callback and queue, opens a fresh stream,
      * sends the configuration request first and starts a fresh sender.
      */
    method StartStreamingRecognize(resultCallback: TranscriptCallback, queue: Channel<Chunk>)
      modifies this, log
      ensures old(streaming) ==> unchanged(this) && unchanged(log)
      ensures !old(streaming) ==> log.events == old(log.events) + [RecognitionStarted]
      ensures !old(streaming) ==> streaming && callback == resultCallback && audioQueue == queue
      ensures !old(streaming) ==> stream != null && fresh(stream)
      ensures !old(streaming) ==> stream.sent == [ConfigRequest(STREAMING_CONFIG)] && stream.closeSendCalls == 0
      ensures !old(streaming) ==> senderStarted && !senderParked && !senderInterrupted && !senderExited && dropped == []
    {
      if streaming {
        return;
      }
      callback := resultCallback;
      audioQueue := queue;
      streaming := true;
      var s := new ClientStream();
      s.Send(ConfigRequest(STREAMING_CONFIG));
      stream := s;
      senderStarted, senderParked, senderInterrupted, senderExited := true, false, false, false;
      dropped := [];
      log.events := log.events + [RecognitionStarted];
    }

    /** `onResponse`: a final first result's transcript goes to the callback; anything else is not delivered. */
    method OnResponse(response: RecognitionResponse)
      requires callback != null
      modifies callback, callback.textQueue, callback.textQueue.log
      ensures var o := ResponseOutcomeOf(response);
        if o.Deliver? && o.transcript != "" then
          callback.textQueue.items == old(callback.textQueue.items) + [o.transcript]
          && callback.shown == old(callback.shown) + [o.transcript]
          && callback.textQueue.log.events == old(callback.textQueue.log.events) + [ItemOffered(callback.textQueue)]
        else
          callback.textQueue.items == old(callback.textQueue.items) && callback.shown == old(callback.shown)
          && callback.textQueue.log.events == old(callback.textQueue.log.events)
    {
      var outcome := ResponseOutcomeOf(response);
      if outcome.Deliver? {
        callback.Accept(Some(outcome.transcript));
      }
    }

    /**
      * `onError`: lowers the flag, stops the session, then hands the callback
      * "ERROR: " and the message.
      */
    method OnError(message: Option<string>)
      modifies this`streaming, this`senderInterrupted, log
      modifies if callback == null then {} else {callback, callback.textQueue, callback.textQueue.log}
      ensures !streaming && senderInterrupted == (old(senderInterrupted) || senderStarted)
      ensures callback != null ==>
        callback.textQueue.items == old(callback.textQueue.items) + [ErrorText(message)]
        && callback.shown == old(callback.shown) + [ErrorText(message)]
      ensures callback == null ==> log.events == old(log.events) + [RecognitionStopped]
      ensures callback != null && callback.textQueue.log == log ==>
        log.events == old(log.events) + [RecognitionStopped, ItemOffered(callback.textQueue)]
      ensures callback != null && callback.textQueue.log != log ==>
        log.events == old(log.events) + [RecognitionStopped]
    {
      streaming := false;
      StopStreamingRecognize();
      if callback != null {
        callback.Accept(Some(ErrorText(message)));
      }
    }

    /** `onComplete`: the flag goes down; nothing else changes. */
    method OnComplete()
      modifies this`streaming
      ensures !streaming
    {
      streaming := false;
    }

    /** `stopStreamingRecognize`: lowers the flag and interrupts the sender if there is one. */
    method StopStreamingRecognize()
      modifies this`streaming, this`senderInterrupted, log
      ensures !streaming && senderInterrupted == (old(senderInterrupted) || senderStarted)
      ensures log.events == old(log.events) + [RecognitionStopped]
    {
      streaming := false;
      if senderStarted {
        senderInterrupted := true;
      }
      log.events := log.events + [RecognitionStopped];
    }

    /** The sender thread's loop, given `turns` scheduling turns. */
    method RunSender(turns: nat)
      requires stream != null && audioQueue != null
      modifies this`senderParked, this`senderExited, this`dropped, stream, audioQueue
      ensures SenderSnapshot() == SenderRun(old(SenderSnapshot()), turns)
    {
      var t := 0;
      while t < turns && !senderExited
        invariant 0 <= t <= turns
        invariant SenderRun(SenderSnapshot(), turns - t) == SenderRun(old(SenderSnapshot()), turns)
      {
        ghost var before := SenderSnapshot();
        if !senderParked && !streaming {
          senderExited, senderParked := true, false;
          stream.CloseSend();
        } else if senderInterrupted {
          senderExited, senderParked := true, false;
          stream.CloseSend();
        } else if audioQueue.items == [] {
          senderParked := true;
        } else {
          var audioChunk := audioQueue.Take();
          senderParked := false;
          if !streaming {
            dropped := dropped + [audioChunk];
            senderExited := true;
            stream.CloseSend();
          } else {
            stream.Send(AudioRequest(audioChunk));
          }
        }
        assert SenderSnapshot() == SenderStep(before);
        t := t + 1;
      }
      if t < turns {
        SenderExitedStays(SenderSnapshot(), turns - t);
      }
    }
  }
}
