/**
  * ZoomRealtimeTranslatorUI without its widgets: choosing the capture line,
  * wiring the three stages together on start, the translation thread's loop,
  * and the order in which stop tears the stages down.
  */
module Controller {
  import opened Common
  import opened Text
  import opened Queues
  import opened Transcripts
  import opened Translation
  import opened Capture
  import opened Recognition
  import opened Events

  // ---------------------------------------------------------------------------
  // Choosing the capture line

  datatype Encoding = PCM_SIGNED | PCM_UNSIGNED | PCM_FLOAT | ULAW | ALAW

  /** `javax.sound.sampled.AudioFormat`: an object, so `equals` is inherited from `Object` and compares identity. */
  class AudioFormat {
    const encoding: Encoding
    const sampleRate: int
    const sampleSizeInBits: int
    const channels: int
    const frameSize: int
    const frameRate: int
    const bigEndian: bool

    constructor (encoding: Encoding, sampleRate: int, sampleSizeInBits: int, channels: int,
                 frameSize: int, frameRate: int, bigEndian: bool)
      ensures this.encoding == encoding && this.sampleRate == sampleRate
      ensures this.sampleSizeInBits == sampleSizeInBits && this.channels == channels
      ensures this.frameSize == frameSize && this.frameRate == frameRate && this.bigEndian == bigEndian
    {
      this.encoding, this.sampleRate, this.sampleSizeInBits := encoding, sampleRate, sampleSizeInBits;
      this.channels, this.frameSize, this.frameRate, this.bigEndian := channels, frameSize, frameRate, bigEndian;
    }
  }

  /** The wanted format field by field: signed 16-bit PCM, 16 kHz, mono, 2-byte frames, little-endian. */
  predicate IsTargetFormat(af: AudioFormat) {
    af.encoding == PCM_SIGNED && af.sampleRate == 16000 && af.sampleSizeInBits == 16 && af.channels == 1
    && af.frameSize == 2 && af.frameRate == 16000 && !af.bigEndian
  }

  /** A target line of a mixer; only data lines list formats. */
  datatype LineInfo = DataLineInfo(formats: seq<AudioFormat>) | OtherLineInfo

  datatype MixerInfo = MixerInfo(name: string, targetLines: seq<LineInfo>)

  /** The line handed to the recorder: one of the listed mixers', or the system default. */
  datatype LineChoice = MixerLine(index: nat) | DefaultLine

  const FORMAT_NOT_SUPPORTED := "Audio format not supported."

  /** A mixer whose name marks it as a system-audio loopback device. */
  predicate LoopbackName(name: string) {
    Contains(name, "Stereo Mix") || Contains(name, "BlackHole")
  }

  /** Data line `j` of mixer `mx` lists a format at position `f`. */
  predicate FormatAt(mx: MixerInfo, j: int, f: int) {
    0 <= j < |mx.targetLines| && mx.targetLines[j].DataLineInfo? && 0 <= f < |mx.targetLines[j].formats|
  }

  /** A loopback mixer one of whose data lines offers the wanted format. */
  predicate Suitable(mx: MixerInfo) {
    && LoopbackName(mx.name)
    && (exists j, f :: 0 <= j < |mx.targetLines| && mx.targetLines[j].DataLineInfo?
          && 0 <= f < |mx.targetLines[j].formats| && IsTargetFormat(mx.targetLines[j].formats[f]))
  }

  /**
    * `getAudioInputLine` with formats compared by value: fails when the format
    * is unsupported, picks the first suitable mixer in enumeration order, and
    * falls back to the default line when there is none.
    */
  method GetAudioInputLine(lineSupported: bool, mixers: seq<MixerInfo>) returns (r: Result<LineChoice, string>)
    ensures !lineSupported ==> r == Failure(FORMAT_NOT_SUPPORTED)
    ensures lineSupported ==> r.Success?
    ensures r.Success? && r.value.MixerLine? ==>
      r.value.index < |mixers| && Suitable(mixers[r.value.index])
      && forall k :: 0 <= k < r.value.index ==> !Suitable(mixers[k])
    ensures r == Success(DefaultLine) ==> forall k :: 0 <= k < |mixers| ==> !Suitable(mixers[k])
  {
    if !lineSupported {
      return Failure(FORMAT_NOT_SUPPORTED);
    }
    var m := 0;
    while m < |mixers|
      invariant 0 <= m <= |mixers|
      invariant forall k :: 0 <= k < m ==> !Suitable(mixers[k])
    {
      var mixer := mixers[m];
      var l := 0;
      while l < |mixer.targetLines|
        invariant 0 <= l <= |mixer.targetLines|
        invariant LoopbackName(mixer.name) ==>
          forall j, f :: 0 <= j < l && FormatAt(mixer, j, f) ==> !IsTargetFormat(mixer.targetLines[j].formats[f])
      {
        var lineInfo := mixer.targetLines[l];
        if lineInfo.DataLineInfo? {
          var f := 0;
          while f < |lineInfo.formats|
            invariant 0 <= f <= |lineInfo.formats|
            invariant LoopbackName(mixer.name) ==> forall g :: 0 <= g < f ==> !IsTargetFormat(lineInfo.formats[g])
          {
            var af := lineInfo.formats[f];
            if IsTargetFormat(af) {
              if Contains(mixer.name, "Stereo Mix") || Contains(mixer.name, "BlackHole") {
                assert FormatAt(mixer, l, f);
                return Success(MixerLine(m));
              }
            }
            f := f + 1;
          }
        }
        l := l + 1;
      }
      m := m + 1;
    }
    return Success(DefaultLine);
  }

  /** Some data line of the mixer lists this very format object. */
  predicate OffersObject(mx: MixerInfo, format: AudioFormat) {
    exists j, f :: 0 <= j < |mx.targetLines| && mx.targetLines[j].DataLineInfo?
      && 0 <= f < |mx.targetLines[j].formats| && mx.targetLines[j].formats[f] == format
  }

  /**
    * The search in `getAudioInputLine` as written: `af.equals(format)` is
    * `Object.equals`, true only when `af` is the very object `format`.
    */
  function SearchAsWritten(mixers: seq<MixerInfo>, format: AudioFormat, from: nat): (c: LineChoice)
    requires from <= |mixers|
    ensures c.MixerLine? ==> from <= c.index < |mixers| && OffersObject(mixers[c.index], format)
    decreases |mixers| - from
  {
    if from == |mixers| then DefaultLine
    else if OffersObject(mixers[from], format) && LoopbackName(mixers[from].name) then MixerLine(from)
    else SearchAsWritten(mixers, format, from + 1)
  }

  /**
    * The target format is allocated inside the method, so no mixer can list
    * that object: the search as written always ends on the default line.
    */
  lemma {:induction false} SearchAsWrittenFallsBack(mixers: seq<MixerInfo>, format: AudioFormat, from: nat)
    requires from <= |mixers|
    requires forall k :: 0 <= k < |mixers| ==> !OffersObject(mixers[k], format)
    ensures SearchAsWritten(mixers, format, from) == DefaultLine
    decreases |mixers| - from
  {
    if from < |mixers| {
      SearchAsWrittenFallsBack(mixers, format, from + 1);
    }
  }

  /**
    * A "Stereo Mix" mixer offering exactly the wanted format is suitable, so
    * the value comparison selects it, yet the search as written passes it by
    * because its format is a different object.
    */
  lemma StereoMixMissedAsWritten(offered: AudioFormat, format: AudioFormat)
    requires IsTargetFormat(offered) && offered != format
    ensures var mixers := [MixerInfo("Stereo Mix", [DataLineInfo([offered])])];
      Suitable(mixers[0]) && SearchAsWritten(mixers, format, 0) == DefaultLine
  {
    var mixers := [MixerInfo("Stereo Mix", [DataLineInfo([offered])])];
    assert OccursAt("Stereo Mix", "Stereo Mix", 0);
    assert mixers[0].targetLines[0].formats[0] == offered;
    assert !OffersObject(mixers[0], format);
  }

  // ---------------------------------------------------------------------------
  // The translation thread

  /** The value `stopTranslation` offers to make the translation thread leave. */
  const STOP_SIGNAL := "STOP_SIGNAL"
  const SOURCE_LANGUAGE := "en"
  const TARGET_LANGUAGE := "zh-CN"

  /** What `translate(text, "en", "zh-CN")` gives for one item. */
  function TranslateItem(projectId: string, client: TranslationClient, text: string): Result<string, string> {
    TranslationOf(projectId, Some(text), SOURCE_LANGUAGE, TARGET_LANGUAGE, client)
  }

  /** An item that ends the loop once taken: the sentinel, or a text whose translation throws. */
  predicate EndsLoop(projectId: string, client: TranslationClient, text: string) {
    text == STOP_SIGNAL || TranslateItem(projectId, client, text).Failure?
  }

  /** The translations of `items`, in order, up to the first item that ends the loop. */
  function Outputs(projectId: string, client: TranslationClient, items: seq<string>): seq<string>
    decreases |items|
  {
    if items == [] || EndsLoop(projectId, client, items[0]) then []
    else [TranslateItem(projectId, client, items[0]).value] + Outputs(projectId, client, items[1..])
  }

  /** No item ends the loop. */
  predicate Clean(projectId: string, client: TranslationClient, items: seq<string>) {
    forall k :: 0 <= k < |items| ==> !EndsLoop(projectId, client, items[k])
  }

  /**
    * The translation thread as its loop sees it: the text queue, its
    * interrupt status, whether it has left, the items it took, the lines of
    * the translated-text area, the requests sent to the client, and the
    * message of the error dialog.
    */
  datatype TranslatorState = TranslatorState(
    queue: seq<string>, interrupted: bool, exited: bool, taken: seq<string>,
    translated: seq<string>, requests: seq<TranslateRequest>, failure: Option<string>)

  /**
    * One scheduling turn of `while (!isInterrupted())`: an interrupt ends the
    * loop (at its head, or as an InterruptedException from `take`); on an
    * empty queue the thread waits; the sentinel ends the loop untranslated;
    * any other item is translated, and an IOException ends the loop because
    * it is caught outside the `while`.
    */
  function TranslatorStep(s: TranslatorState, projectId: string, client: TranslationClient): TranslatorState {
    if s.exited then s
    else if s.interrupted then s.(exited := true)
    else if s.queue == [] then s
    else
      var x := s.queue[0];
      var t := s.(queue := s.queue[1..], taken := s.taken + [x]);
      if x == STOP_SIGNAL then t.(exited := true)
      else
        var requests := if IsBlank(Some(x)) then t.requests
                        else t.requests + [RequestFor(projectId, x, SOURCE_LANGUAGE, TARGET_LANGUAGE)];
        match TranslateItem(projectId, client, x)
        case Success(y) => t.(requests := requests, translated := t.translated + [y])
        case Failure(message) => t.(requests := requests, failure := Some(message), exited := true)
  }

  /** The translation thread given `turns` scheduling turns. */
  function TranslatorRun(s: TranslatorState, projectId: string, client: TranslationClient, turns: nat): TranslatorState
    decreases turns
  {
    if turns == 0 then s else TranslatorRun(TranslatorStep(s, projectId, client), projectId, client, turns - 1)
  }

  lemma {:induction false} TranslatorExitedStays(s: TranslatorState, projectId: string, client: TranslationClient, turns: nat)
    requires s.exited
    ensures TranslatorRun(s, projectId, client, turns) == s
    decreases turns
  {
    if turns > 0 {
      TranslatorExitedStays(TranslatorStep(s, projectId, client), projectId, client, turns - 1);
    }
  }

  /** Items leave the text queue in FIFO order: what was taken, then what is left, is unchanged. */
  lemma {:induction false} TranslatorConservesItems(s: TranslatorState, projectId: string, client: TranslationClient, turns: nat)
    ensures var r := TranslatorRun(s, projectId, client, turns);
      r.taken + r.queue == s.taken + s.queue && s.taken <= r.taken
    decreases turns
  {
    if turns > 0 {
      var next := TranslatorStep(s, projectId, client);
      if !s.exited && !s.interrupted && s.queue != [] {
        assert s.queue == [s.queue[0]] + next.queue;
        assert next.taken + next.queue == s.taken + s.queue;
      }
      TranslatorConservesItems(next, projectId, client, turns - 1);
    }
  }

  /** Appending one more taken item extends the outputs by its translation, unless it ends the loop. */
  lemma {:induction false} OutputsAppend(projectId: string, client: TranslationClient, items: seq<string>, x: string)
    requires Clean(projectId, client, items)
    ensures Outputs(projectId, client, items + [x]) ==
      Outputs(projectId, client, items)
      + (if EndsLoop(projectId, client, x) then [] else [TranslateItem(projectId, client, x).value])
    decreases |items|
  {
    if items == [] {
      assert [x][1..] == [];
    } else {
      assert (items + [x])[1..] == items[1..] + [x];
      OutputsAppend(projectId, client, items[1..], x);
    }
  }

  /**
    * The loop's invariant: the translated area holds the translations of the
    * taken items in order, up to the first one that ended the loop; and once
    * such an item has been taken, the thread has left.
    */
  predicate TranslatorConsistent(s: TranslatorState, projectId: string, client: TranslationClient) {
    s.translated == Outputs(projectId, client, s.taken)
    && (!Clean(projectId, client, s.taken) ==> s.exited)
  }

  lemma TranslatorStepConsistent(s: TranslatorState, projectId: string, client: TranslationClient)
    requires TranslatorConsistent(s, projectId, client)
    ensures TranslatorConsistent(TranslatorStep(s, projectId, client), projectId, client)
  {
    if !s.exited && !s.interrupted && s.queue != [] {
      var x := s.queue[0];
      OutputsAppend(projectId, client, s.taken, x);
      var n := TranslatorStep(s, projectId, client);
      if !EndsLoop(projectId, client, x) {
        assert Clean(projectId, client, s.taken + [x]) by {
          forall k | 0 <= k < |s.taken + [x]| ensures !EndsLoop(projectId, client, (s.taken + [x])[k]) {
            if k < |s.taken| {
              assert (s.taken + [x])[k] == s.taken[k];
            }
          }
        }
      }
    }
  }

  /**
    * Every run keeps the invariant: each item is translated at most once, in
    * queue order, the sentinel is never translated, and nothing taken after
    * the first failed translation exists, because the thread left.
    */
  lemma {:induction false} TranslatorRunConsistent(s: TranslatorState, projectId: string, client: TranslationClient, turns: nat)
    requires TranslatorConsistent(s, projectId, client)
    ensures TranslatorConsistent(TranslatorRun(s, projectId, client, turns), projectId, client)
    decreases turns
  {
    if turns > 0 {
      TranslatorStepConsistent(s, projectId, client);
      TranslatorRunConsistent(TranslatorStep(s, projectId, client), projectId, client, turns - 1);
    }
  }

  /**
    * The sentinel at the head of the queue ends the loop: it is taken but
    * neither translated nor sent to the client, and later items stay queued.
    */
  lemma {:induction false} StopSignalEndsLoop(s: TranslatorState, projectId: string, client: TranslationClient, turns: nat)
    requires !s.exited && !s.interrupted && s.queue != [] && s.queue[0] == STOP_SIGNAL
    ensures var r := TranslatorRun(s, projectId, client, turns + 1);
      r.exited && r.translated == s.translated && r.requests == s.requests && r.queue == s.queue[1..]
  {
    TranslatorExitedStays(TranslatorStep(s, projectId, client), projectId, client, turns);
  }

  /**
    * The first IOException ends the loop for good: its message is reported,
    * and no later item is taken, sent or translated.
    */
  lemma {:induction false} FirstFailureEndsLoop(s: TranslatorState, projectId: string, client: TranslationClient, turns: nat)
    requires !s.exited && !s.interrupted && s.queue != [] && s.queue[0] != STOP_SIGNAL
    requires TranslateItem(projectId, client, s.queue[0]).Failure?
    ensures var r := TranslatorRun(s, projectId, client, turns + 1);
      r.exited && r.failure == Some(TranslateItem(projectId, client, s.queue[0]).error)
      && r.translated == s.translated && r.queue == s.queue[1..]
      && r.requests == s.requests + [RequestFor(projectId, s.queue[0], SOURCE_LANGUAGE, TARGET_LANGUAGE)]
  {
    TranslatorExitedStays(TranslatorStep(s, projectId, client), projectId, client, turns);
  }

  /** One turn on an item that does not end the loop takes it and appends its translation. */
  lemma TranslatorTranslatesHead(s: TranslatorState, projectId: string, client: TranslationClient)
    requires !s.exited && !s.interrupted && s.queue != [] && !EndsLoop(projectId, client, s.queue[0])
    ensures var n := TranslatorStep(s, projectId, client);
      n.queue == s.queue[1..] && n.taken == s.taken + [s.queue[0]]
      && n.translated == s.translated + [TranslateItem(projectId, client, s.queue[0]).value]
      && !n.exited && !n.interrupted
  {
  }

  /**
    * While nothing queued ends the loop and nobody interrupts, one turn per
    * queued item takes every item in order and translates each of them; the
    * thread is then waiting for more.
    */
  lemma {:induction false} TranslatorDrainsQueue(s: TranslatorState, projectId: string, client: TranslationClient)
    requires !s.exited && !s.interrupted && Clean(projectId, client, s.queue)
    ensures var r := TranslatorRun(s, projectId, client, |s.queue|);
      r.queue == [] && r.taken == s.taken + s.queue
      && r.translated == s.translated + Outputs(projectId, client, s.queue) && !r.exited && !r.interrupted
    decreases |s.queue|
  {
    if s.queue == [] {
      assert s.taken + [] == s.taken && s.translated + [] == s.translated;
    } else {
      var x, rest := s.queue[0], s.queue[1..];
      assert !EndsLoop(projectId, client, s.queue[0]);
      var y := TranslateItem(projectId, client, x).value;
      TranslatorTranslatesHead(s, projectId, client);
      var next := TranslatorStep(s, projectId, client);
      assert Clean(projectId, client, rest) by {
        forall k | 0 <= k < |rest| ensures !EndsLoop(projectId, client, rest[k]) {
          assert rest[k] == s.queue[k + 1];
        }
      }
      TranslatorDrainsQueue(next, projectId, client);
      assert TranslatorRun(s, projectId, client, |s.queue|) == TranslatorRun(next, projectId, client, |rest|);
      AppendHeadTail(s.taken, s.queue);
      assert Outputs(projectId, client, s.queue) == [y] + Outputs(projectId, client, rest);
      AppendAssociates(s.translated, [y], Outputs(projectId, client, rest));
    }
  }

  lemma AppendHeadTail<T>(a: seq<T>, q: seq<T>)
    requires q != []
    ensures a + [q[0]] + q[1..] == a + q
  {
    assert q == [q[0]] + q[1..];
  }

  /** An interrupted thread takes and translates nothing more. */
  lemma {:induction false} InterruptedTranslatorIdle(s: TranslatorState, projectId: string, client: TranslationClient, turns: nat)
    requires s.interrupted
    ensures var r := TranslatorRun(s, projectId, client, turns);
      r.taken == s.taken && r.queue == s.queue && r.translated == s.translated && r.requests == s.requests
    decreases turns
  {
    if turns > 0 {
      InterruptedTranslatorIdle(TranslatorStep(s, projectId, client), projectId, client, turns - 1);
    }
  }

  // ---------------------------------------------------------------------------
  // The window's start and stop

  class TranslatorWindow {
    const audioQueue: Channel<Chunk>
    const textQueue: Channel<string>
    const recorder: AudioRecorder
    const speech: SpeechToTextService
    const translator: TranslationService
    /** The result callback, together with the original-text area it fills. */
    const callback: TranscriptCallback
    /** Lines of the translated-text area. */
    var translated: seq<string>
    /** `translationProcessorThread != null`. */
    var translationStarted: bool
    /** The translation thread's interrupt status. */
    var translationInterrupted: bool
    /** The translation thread has left its loop (or none is running). */
    var translationExited: bool
    /** The message of the "Translation Error" dialog, once one is shown. */
    var translationFailure: Option<string>
    /** The items the translation thread took from the text queue. */
    ghost var taken: seq<string>
    /** The log shared by the queues, the recorder, the recognition service and this window. */
    const log: EventLog

    ghost predicate Valid() {
      && recorder.audioQueue == audioQueue && callback.textQueue == textQueue
      && audioQueue.log == log && textQueue.log == log && recorder.log == log && speech.log == log
    }

    ghost function TranslatorSnapshot(): TranslatorState
      reads this, textQueue, translator
    {
      TranslatorState(textQueue.items, translationInterrupted, translationExited, taken,
                      translated, translator.requests, translationFailure)
    }

    /**
      * `setupServices` once credentials are loaded and the line chosen: both
      * cloud services, and a recorder on `line` feeding the audio queue.
      */
    constructor (credentials: Credentials, env: Option<string>, line: DataLine)
      modifies line
      ensures Valid()
      ensures fresh(audioQueue) && fresh(textQueue) && fresh(recorder) && fresh(speech)
      ensures fresh(translator) && fresh(callback) && fresh(log)
      ensures recorder.line == line && !recorder.running
      ensures old(line.isOpen) ==> line.isOpen && line.bufferSize == old(line.bufferSize)
      ensures !old(line.isOpen) ==> line.isOpen && line.bufferSize == 2 * BUFFER_SIZE
      ensures line.isRunning == old(line.isRunning)
      ensures translator.projectId == ResolveProjectId(credentials, env) && translator.requests == []
      ensures !speech.streaming && !translationStarted && translationExited
      ensures audioQueue.items == [] && textQueue.items == [] && log.events == []
      ensures translated == [] && callback.shown == [] && taken == [] && translationFailure == None
    {
      var events := new EventLog();
      var aq := new Channel<Chunk>(events);
      var tq := new Channel<string>(events);
      speech := new SpeechToTextService(events);
      translator := new TranslationService(credentials, env);
      recorder := new AudioRecorder(line, aq, events);
      callback := new TranscriptCallback(tq);
      audioQueue, textQueue, log := aq, tq, events;
      translated := [];
      translationStarted, translationInterrupted, translationExited := false, false, true;
      translationFailure := None;
      taken := [];
    }

    /**
      * `startTranslation`: clears both areas and both queues, then starts the
      * recorder, the recognition session (whose callback feeds the text queue
      * through `callback`) and a fresh translation thread.
      */
    method StartTranslation()
      requires Valid()
      modifies this`translated, this`translationStarted, this`translationInterrupted, this`translationExited
      modifies this`translationFailure, this`taken
      modifies audioQueue, textQueue, callback, recorder, recorder.line, speech, log
      ensures Valid()
      ensures log.events == old(log.events) + [QueueCleared(audioQueue), QueueCleared(textQueue)]
        + (if old(recorder.running) then [] else [RecorderStarted])
        + (if old(speech.streaming) then [] else [RecognitionStarted])
        + [TranslatorStarted]
      ensures audioQueue.items == [] && textQueue.items == []
      ensures translated == [] && callback.shown == []
      ensures recorder.running && speech.streaming
      ensures old(recorder.running) ==> unchanged(recorder, recorder.line)
      ensures !old(recorder.running) ==>
        recorder.threadStarted && !recorder.threadExited && !recorder.threadInterrupted
        && recorder.line.isRunning == (old(recorder.line.isRunning) || recorder.line.isOpen)
      ensures recorder.line.isOpen == old(recorder.line.isOpen) && recorder.line.bufferSize == old(recorder.line.bufferSize)
      ensures old(speech.streaming) ==> unchanged(speech)
      ensures !old(speech.streaming) ==>
        speech.senderStarted && !speech.senderParked && !speech.senderInterrupted && !speech.senderExited
        && speech.dropped == [] && speech.stream != null && fresh(speech.stream) && speech.stream.closeSendCalls == 0
      ensures !old(speech.streaming) ==>
        speech.callback == callback && speech.audioQueue == audioQueue
        && speech.stream != null && speech.stream.sent == [ConfigRequest(STREAMING_CONFIG)]
      ensures translationStarted && !translationInterrupted && !translationExited
      ensures taken == [] && translationFailure == None
    {
      callback.ClearDisplay();
      translated := [];
      audioQueue.Clear();
      textQueue.Clear();
      recorder.StartRecording();
      speech.StartStreamingRecognize(callback, audioQueue);
      StartTranslationThread();
    }

    /** A fresh translation thread: not interrupted, nothing taken, no error shown. */
    method StartTranslationThread()
      modifies this`translationStarted, this`translationInterrupted, this`translationExited
      modifies this`translationFailure, this`taken, log
      ensures translationStarted && !translationInterrupted && !translationExited
      ensures taken == [] && translationFailure == None
      ensures log.events == old(log.events) + [TranslatorStarted]
    {
      taken, translationFailure := [], None;
      translationStarted, translationInterrupted, translationExited := true, false, false;
      log.events := log.events + [TranslatorStarted];
    }

    /** `translationProcessorThread.interrupt()`. */
    method InterruptTranslationThread()
      modifies this`translationInterrupted, log
      ensures translationInterrupted
      ensures log.events == old(log.events) + [TranslatorInterrupted]
    {
      translationInterrupted := true;
      log.events := log.events + [TranslatorInterrupted];
    }

    /** The translation thread's loop, given `turns` scheduling turns; `client` answers the translation requests. */
    method RunTranslation(client: TranslationClient, turns: nat)
      modifies this`translationExited, this`translated, this`translationFailure, this`taken
      modifies textQueue, translator`requests
      ensures TranslatorSnapshot() == TranslatorRun(old(TranslatorSnapshot()), translator.projectId, client, turns)
    {
      var t := 0;
      while t < turns && !translationExited
        invariant 0 <= t <= turns
        invariant TranslatorRun(TranslatorSnapshot(), translator.projectId, client, turns - t)
               == TranslatorRun(old(TranslatorSnapshot()), translator.projectId, client, turns)
      {
        ghost var before := TranslatorSnapshot();
        if translationInterrupted {
          translationExited := true;
        } else if textQueue.items != [] {
          var originalText := textQueue.Take();
          taken := taken + [originalText];
          if originalText == STOP_SIGNAL {
            translationExited := true;
          } else {
            var result := translator.Translate(Some(originalText), SOURCE_LANGUAGE, TARGET_LANGUAGE, client);
            match result {
              case Success(translatedText) =>
                translated := translated + [translatedText];
              case Failure(message) =>
                translationFailure := Some(message);
                translationExited := true;
            }
          }
        }
        assert TranslatorSnapshot() == TranslatorStep(before, translator.projectId, client);
        t := t + 1;
      }
      if t < turns {
        TranslatorExitedStays(TranslatorSnapshot(), translator.projectId, client, turns - t);
      }
    }

    /**
      * `stopTranslation`, in its fixed order: stop the recorder, stop the
      * recognition session, then, if the translation thread is alive, offer
      * the sentinel and interrupt it.
      */
    method StopTranslation()
      requires Valid()
      modifies this`translationInterrupted, recorder`running, recorder`threadInterrupted, recorder.line
      modifies speech`streaming, speech`senderInterrupted, textQueue, log
      ensures Valid()
      ensures log.events == old(log.events) + [RecorderStopped, RecognitionStopped]
        + (if old(translationStarted && !translationExited) then [ItemOffered(textQueue), TranslatorInterrupted] else [])
      ensures !recorder.running && !speech.streaming
      ensures recorder.threadInterrupted == (old(recorder.threadInterrupted) || recorder.threadStarted)
      ensures speech.senderInterrupted == (old(speech.senderInterrupted) || speech.senderStarted)
      ensures old(recorder.line.isRunning) ==>
        !recorder.line.isRunning && !recorder.line.isOpen && recorder.line.bufferSize == old(recorder.line.bufferSize)
      ensures !old(recorder.line.isRunning) ==> unchanged(recorder.line)
      ensures audioQueue.items == old(audioQueue.items)
      ensures old(translationStarted && !translationExited) ==>
        textQueue.items == old(textQueue.items) + [STOP_SIGNAL] && translationInterrupted
      ensures !old(translationStarted && !translationExited) ==>
        textQueue.items == old(textQueue.items) && translationInterrupted == old(translationInterrupted)
    {
      recorder.StopRecording();
      speech.StopStreamingRecognize();
      if translationStarted && !translationExited {
        textQueue.Put(STOP_SIGNAL);
        InterruptTranslationThread();
      }
    }
  }

  /**
    * One utterance end to end: after start, a final recognition result "hello
    * world" reaches the original-text area and the text queue, and one turn of
    * the translation thread puts its translation in the translated-text area.
    */
  method TranslateOneUtterance(credentials: Credentials, env: Option<string>, line: DataLine,
                               client: TranslationClient, translation: string)
    returns (original: seq<string>, translated: seq<string>)
    requires client(RequestFor(ResolveProjectId(credentials, env), "hello world", SOURCE_LANGUAGE, TARGET_LANGUAGE))
             == Success([translation])
    modifies line
    ensures original == ["hello world"] && translated == [translation]
  {
    var window := new TranslatorWindow(credentials, env, line);
    window.StartTranslation();
    window.speech.OnResponse(RecognitionResponse([RecognitionResult(true, ["hello world"])]));
    BlankIffAllTrimmed(Some("hello world"));
    assert !IsTrimmed("hello world"[0]);
    assert [translation][..0] == [];
    assert Concat([translation]) == translation;
    ghost var before := window.TranslatorSnapshot();
    assert before.queue == ["hello world"] && !before.exited && !before.interrupted;
    window.RunTranslation(client, 1);
    assert window.TranslatorSnapshot() == TranslatorStep(before, window.translator.projectId, client);
    original, translated := window.callback.shown, window.translated;
  }
}
