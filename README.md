# Zoom real-time translator: a verified model of its pipeline

The application captures system audio and streams it to Google Speech-to-Text. It sends every final English transcript to Google Translate and shows the original text and the Simplified Chinese translation side by side in a Swing window. Three threads are joined by two `LinkedBlockingQueue`s:

- the recording thread (`AudioRecorder`) puts 100 ms chunks of 16 kHz, 16-bit, mono PCM on the audio queue;
- the sender thread (`SpeechToTextService`) takes chunks and sends them on the recognition stream; the stream's response observer hands final transcripts to a callback, which appends them to the text queue;
- the translation thread (`ZoomRealtimeTranslatorUI`) takes texts and calls `TranslationService.translate`.

This project models that pipeline in Dafny:

| module | file | models |
|---|---|---|
| `Common` | common.dfy | `Option`, `Result`, bytes and audio chunks |
| `Events` | events.dfy | the log of queue, start, stop and interrupt actions shared by all stages |
| `Text` | text.dfy | Java's `String.indexOf`, `contains` and `trim`, and the blank test |
| `Queues` | queues.dfy | the unbounded FIFO queues (`Channel`) |
| `Transcripts` | transcripts.dfy | the window's result callback and the original-text area |
| `Translation` | translation.dfy | `TranslationService`: project-id resolution and `translate` |
| `Capture` | capture.dfy | `AudioRecorder` and the capture line |
| `Recognition` | recognition.dfy | `SpeechToTextService`: session flag, config request, sender loop, response observer |
| `Controller` | controller.dfy | `ZoomRealtimeTranslatorUI`: line selection, start, the translation loop, stop |

Threads are modelled as follows:

- Each thread's `while` loop is a method that advances that thread by a number of turns: `AudioRecorder.RunCapture`, `SpeechToTextService.RunSender` and `TranslatorWindow.RunTranslation`. The thread's own state (interrupted, blocked in `take`, exited) is kept in fields.
- Every such method is proved equal to a pure run function (`CaptureRun`, `SenderRun`, `TranslatorRun`) built from a one-turn step function. The properties are lemmas about those functions.
- What other threads do (stop, callbacks, puts) is a separate method call between runs. An interleaving is therefore a sequence of calls.
- The queues, the recorder, the recognition service and the window append their own actions to one shared ghost log: `clear` and `put` on a queue, starting and stopping the recorder and the recognition session, starting and interrupting the translation thread. Each method states the entries it appends, so the order of start and stop follows from the order of the calls they make.

External services are modelled as follows:

- The translation client is a function parameter from request to translations or an error message. The error stands for the `IOException` that `translate` declares (see "## Left out").
- The recognition stream is a `ClientStream` object that records what was sent and how often `closeSend` was called.
- Recognition responses and errors arrive as calls to `OnResponse`, `OnError` and `OnComplete`.
- Reads from the capture device are a sequence of read results.
- The mixer enumeration is a sequence of mixer records.
- `GOOGLE_CLOUD_PROJECT` is an optional string parameter.

## Model

| member | source | states |
|---|---|---|
| Text.IndexOf | src/main/java/com/litongjava/zoom/translator/TranslationService.java:48-49 | the result is -1 or the position of the first occurrence of the pattern, with no earlier occurrence |
| Text.Trim | src/main/java/com/litongjava/zoom/translator/TranslationService.java:70 | the trimmed text has no character <= ' ' at either end |
| Text.TrimIsInfix | src/main/java/com/litongjava/zoom/translator/TranslationService.java:70 | the trimmed text is an infix of the text with only characters <= ' ' before and after it; with Trim's own contract, exactly the maximal such runs are removed |
| Text.BlankIffAllTrimmed | src/main/java/com/litongjava/zoom/translator/TranslationService.java:70 | text is blank (null, or empty after trim) exactly when it is null or every character is <= ' ' |
| Translation.ProjectFromEmail | src/main/java/com/litongjava/zoom/translator/TranslationService.java:44-51 | both directions: when the email contains '@' and the IAM suffix and the suffix's first index exceeds the first '@', the id is the text strictly between them; any id returned arises that way; a suffix at or before the first '@' yields nothing |
| Translation.ProjectFromEmailSplits | src/main/java/com/litongjava/zoom/translator/TranslationService.java:48-51 | an extracted id is exactly the text between the first '@' and the first suffix: the email is the name, '@', the id, the suffix and the rest |
| Translation.ProjectFromEmailRoundTrip | src/main/java/com/litongjava/zoom/translator/TranslationService.java:46-51 | for an email name@project.iam.gserviceaccount.com (name without '@' or '.', project without '.', possibly empty), the extracted id is exactly project |
| Translation.QuotaProjectWins | src/main/java/com/litongjava/zoom/translator/TranslationService.java:30-33 | a non-empty quota project is the id, whatever the credential kind or email |
| Translation.OtherCredentialsSkipEmail | src/main/java/com/litongjava/zoom/translator/TranslationService.java:36-42 | credentials that are not a service account go straight to the environment fallback, as if they had no email |
| Translation.EmailThenEnvironment | src/main/java/com/litongjava/zoom/translator/TranslationService.java:44-64 | with no quota project, a non-empty extracted id wins; a missing or empty one falls back to GOOGLE_CLOUD_PROJECT, else the literal default |
| Translation.ResolvedIdNonEmpty | src/main/java/com/litongjava/zoom/translator/TranslationService.java:61-64 | the resolved id is empty only when GOOGLE_CLOUD_PROJECT is set to the empty string |
| Translation.TranslationService.constructor | src/main/java/com/litongjava/zoom/translator/TranslationService.java:30-64 | the step-by-step resolution (quota project, then the email step, then the environment) leaves exactly the id of the resolution chain, and no request has been sent |
| Translation.ConcatAppend | src/main/java/com/litongjava/zoom/translator/TranslationService.java:81-82 | appending translations one by one distributes over any split of the response list |
| Translation.ConcatPlacesEachPart | src/main/java/com/litongjava/zoom/translator/TranslationService.java:81-85 | every translation appears in the result, unaltered, right after those before it |
| Translation.TranslationService.Translate | src/main/java/com/litongjava/zoom/translator/TranslationService.java:69-86 | blank text returns "" and sends nothing; otherwise exactly one request (global, text/plain, the text, both languages) is sent and the result is the in-order concatenation of the translations, or the client's error |
| Capture.BufferHoldsTenthOfASecond | src/main/java/com/litongjava/zoom/translator/AudioRecorder.java:23-30 | BUFFER_SIZE is 3200 bytes, one tenth of a second of 16 kHz 16-bit mono audio |
| Capture.AudioRecorder.constructor | src/main/java/com/litongjava/zoom/translator/AudioRecorder.java:32-41 | a closed line is opened with an internal buffer of 2 * BUFFER_SIZE; an open line is left as it was |
| Capture.AudioRecorder.StartRecording | src/main/java/com/litongjava/zoom/translator/AudioRecorder.java:43-51 | a no-op while running, logging nothing; otherwise raises the flag, starts the line and a fresh recording thread, and logs that the recorder started |
| Capture.AudioRecorder.RunCapture | src/main/java/com/litongjava/zoom/translator/AudioRecorder.java:51-71 | the loop over the reused buffer, copying buffer[0..n) for each read, leaves exactly the state CaptureRun gives; a line that is not running delivers no bytes |
| Capture.CaptureEnqueuesEveryPositiveRead | src/main/java/com/litongjava/zoom/translator/AudioRecorder.java:55-62 | while running and uninterrupted, the queue gains a copy of every read of n > 0 bytes, in read order, and nothing for n <= 0 |
| Capture.CaptureAppendsPrefixOfReads | src/main/java/com/litongjava/zoom/translator/AudioRecorder.java:55-66 | in any case the queue only grows, and what it gains is a prefix of the positive reads in order |
| Capture.CaptureSilentOnceStopped | src/main/java/com/litongjava/zoom/translator/AudioRecorder.java:55 | once the flag is down (or the thread has left) nothing more is enqueued |
| Capture.CaptureSilentWithoutAudio | src/main/java/com/litongjava/zoom/translator/AudioRecorder.java:56-57 | reads that return no bytes, all a line that is not running delivers, enqueue nothing |
| Capture.CaptureExitedStays | src/main/java/com/litongjava/zoom/translator/AudioRecorder.java:63-70 | a thread that has left the loop, on a lowered flag or an interrupt during put, never acts again |
| Capture.CaptureKeepsFlags | src/main/java/com/litongjava/zoom/translator/AudioRecorder.java:55-69 | the loop never changes the running flag or its interrupt status |
| Capture.PositiveReadsFit | src/main/java/com/litongjava/zoom/translator/AudioRecorder.java:52-61 | every enqueued chunk holds between 1 and BUFFER_SIZE bytes, and there are no more chunks than reads |
| Capture.AudioRecorder.StopRecording | src/main/java/com/litongjava/zoom/translator/AudioRecorder.java:75-91 | the flag goes down, a started thread is interrupted, and the line is stopped and closed only if it was running, its buffer size kept; the queue is untouched; the stop is logged |
| Transcripts.TranscriptCallback.Accept | src/main/java/com/litongjava/zoom/translator/ZoomRealtimeTranslatorUI.java:190-197 | a non-null, non-empty result is appended to both the original-text area and the text queue, and the offer is logged; anything else changes neither and logs nothing |
| Transcripts.TranscriptCallback.ClearDisplay | src/main/java/com/litongjava/zoom/translator/ZoomRealtimeTranslatorUI.java:179 | the original-text area is emptied |
| Recognition.ResponseOutcomeOf | src/main/java/com/litongjava/zoom/translator/SpeechToTextService.java:57-64 | a transcript is delivered exactly when the first result is final and has an alternative, and it is that alternative's transcript; a non-final first result is skipped; an empty list throws |
| Recognition.OnlyFirstResultCounts | src/main/java/com/litongjava/zoom/translator/SpeechToTextService.java:58 | results after the first never change what is delivered |
| Recognition.ErrorText | src/main/java/com/litongjava/zoom/translator/SpeechToTextService.java:73 | the error text starts with "ERROR: " and is never dropped by the callback filter |
| Recognition.SpeechToTextService.constructor | src/main/java/com/litongjava/zoom/translator/SpeechToTextService.java:31-39 | a new service is not streaming and has no sender thread |
| Recognition.SpeechToTextService.StartStreamingRecognize | src/main/java/com/litongjava/zoom/translator/SpeechToTextService.java:41-118 | rejected while streaming with nothing changed or logged; otherwise keeps callback and queue, opens a stream whose only request is the LINEAR16 16000 Hz en-US configuration (no interim results, no single utterance), starts a fresh sender and logs that recognition started |
| Recognition.SpeechToTextService.OnResponse | src/main/java/com/litongjava/zoom/translator/SpeechToTextService.java:56-64 | the callback receives the delivered transcript (and forwards and logs it if non-empty); in every other case nothing reaches the text queue or the log |
| Recognition.SpeechToTextService.OnError | src/main/java/com/litongjava/zoom/translator/SpeechToTextService.java:66-75 | only the flag, the sender's interrupt status, the callback's area and queue and the logs change: the flag goes down, the sender is interrupted, recognition is logged as stopped on the service's log, and then "ERROR: " plus the message is offered to the text queue |
| Recognition.SpeechToTextService.OnComplete | src/main/java/com/litongjava/zoom/translator/SpeechToTextService.java:77-81 | the flag goes down and nothing else changes |
| Recognition.SpeechToTextService.StopStreamingRecognize | src/main/java/com/litongjava/zoom/translator/SpeechToTextService.java:120-138 | the flag goes down, a started sender is interrupted, and the stop is logged |
| Recognition.SpeechToTextService.RunSender | src/main/java/com/litongjava/zoom/translator/SpeechToTextService.java:99-115 | the sender loop leaves exactly the state SenderRun gives |
| Recognition.AudioRequests | src/main/java/com/litongjava/zoom/translator/SpeechToTextService.java:105 | one audio request per chunk |
| Recognition.AudioRequestsRoundTrip | src/main/java/com/litongjava/zoom/translator/SpeechToTextService.java:102-106 | the audio carried by the requests built from a sequence of chunks is those chunks, unchanged and in order |
| Recognition.SenderSendsHead | src/main/java/com/litongjava/zoom/translator/SpeechToTextService.java:101-106 | one turn of a streaming, uninterrupted sender with audio queued sends the head chunk as the next request and keeps running |
| Recognition.SenderDrainsQueue | src/main/java/com/litongjava/zoom/translator/SpeechToTextService.java:101-107 | while streaming and uninterrupted, the sender sends every queued chunk as an audio request, in queue order, and empties the queue |
| Recognition.SenderStepConserves | src/main/java/com/litongjava/zoom/translator/SpeechToTextService.java:101-106 | one turn neither loses nor reorders a chunk: sent audio, then dropped chunks, then the queue, stays the same sequence |
| Recognition.SenderConservesChunks | src/main/java/com/litongjava/zoom/translator/SpeechToTextService.java:101-107 | over any run, sent audio then dropped chunks then the queue is unchanged, and at most one chunk (the one taken after the flag dropped) is dropped |
| Recognition.SenderSilentAfterFlagDrop | src/main/java/com/litongjava/zoom/translator/SpeechToTextService.java:101-104 | once the flag is down nothing more is sent, including a chunk already taken |
| Recognition.CloseSendOnceOnExit | src/main/java/com/litongjava/zoom/translator/SpeechToTextService.java:111-113 | closeSend is called exactly once when the loop is left, whether by the flag or an interrupt, and never otherwise |
| Recognition.SenderAppendsOnlyAudio | src/main/java/com/litongjava/zoom/translator/SpeechToTextService.java:97-106 | the sender only appends audio requests after what was already sent, so the configuration request stays first |
| Recognition.SenderExitedStays | src/main/java/com/litongjava/zoom/translator/SpeechToTextService.java:108-114 | a sender that has left never acts again |
| Controller.GetAudioInputLine | src/main/java/com/litongjava/zoom/translator/ZoomRealtimeTranslatorUI.java:135-174 | an unsupported format fails with "Audio format not supported."; otherwise the first mixer, in enumeration order, named "Stereo Mix" or "BlackHole" that offers the wanted format on a data line, else the default line |
| Controller.SearchAsWritten | src/main/java/com/litongjava/zoom/translator/ZoomRealtimeTranslatorUI.java:146-173 | the search with Object.equals: a mixer is chosen only if it lists the very format object |
| Controller.SearchAsWrittenFallsBack | src/main/java/com/litongjava/zoom/translator/ZoomRealtimeTranslatorUI.java:137-173 | when no mixer lists the freshly allocated format object, the search ends on the default line |
| Controller.StereoMixMissedAsWritten | src/main/java/com/litongjava/zoom/translator/ZoomRealtimeTranslatorUI.java:158-163 | a Stereo Mix mixer offering exactly the wanted format is suitable, yet the search as written passes it by |
| Controller.TranslatorRunConsistent | src/main/java/com/litongjava/zoom/translator/ZoomRealtimeTranslatorUI.java:205-226 | after any run the translated area holds the translations of the taken items in FIFO order, up to the first sentinel or failure, and the thread has left once such an item was taken |
| Controller.TranslatorStepConsistent | src/main/java/com/litongjava/zoom/translator/ZoomRealtimeTranslatorUI.java:207-222 | one turn keeps that invariant |
| Controller.OutputsAppend | src/main/java/com/litongjava/zoom/translator/ZoomRealtimeTranslatorUI.java:212-214 | taking one more item extends the translated area by its translation alone, unless it ends the loop |
| Controller.TranslatorConservesItems | src/main/java/com/litongjava/zoom/translator/ZoomRealtimeTranslatorUI.java:207-208 | the taken items followed by the remaining queue never change: items are taken FIFO and none is lost |
| Controller.TranslatorDrainsQueue | src/main/java/com/litongjava/zoom/translator/ZoomRealtimeTranslatorUI.java:207-215 | while no queued item is the sentinel or fails and nobody interrupts, one turn per item takes every queued item in order and appends each one's translation; the thread keeps waiting |
| Controller.TranslatorTranslatesHead | src/main/java/com/litongjava/zoom/translator/ZoomRealtimeTranslatorUI.java:208-215 | one turn on an item that is neither the sentinel nor failing takes it and appends its translation |
| Controller.StopSignalEndsLoop | src/main/java/com/litongjava/zoom/translator/ZoomRealtimeTranslatorUI.java:209-211 | the sentinel ends the loop without being translated or sent, and later items stay queued |
| Controller.FirstFailureEndsLoop | src/main/java/com/litongjava/zoom/translator/ZoomRealtimeTranslatorUI.java:206-222 | the first failed translation ends the loop for good: its message is reported and no later item is taken, sent or translated |
| Controller.InterruptedTranslatorIdle | src/main/java/com/litongjava/zoom/translator/ZoomRealtimeTranslatorUI.java:207-219 | an interrupted translation thread takes, sends and translates nothing more |
| Controller.TranslatorExitedStays | src/main/java/com/litongjava/zoom/translator/ZoomRealtimeTranslatorUI.java:206-225 | a translation thread that has left never acts again |
| Controller.TranslatorWindow.constructor | src/main/java/com/litongjava/zoom/translator/ZoomRealtimeTranslatorUI.java:108-126 | both services, both empty queues and a recorder on the chosen line feeding the audio queue, the line opened with 2 * BUFFER_SIZE unless already open; the translator's project is the resolved one; empty areas, nothing taken, no error, an empty log |
| Controller.TranslatorWindow.StartTranslation | src/main/java/com/litongjava/zoom/translator/ZoomRealtimeTranslatorUI.java:176-229 | the log gains, in this order, the audio queue cleared, the text queue cleared, the recorder started and recognition started (each unless already running), then the translation thread started; the areas are empty; a recorder not yet running has a fresh thread and its line runs if open, one already running is untouched; a session not yet streaming has the window's callback, the audio queue, a fresh stream holding only the configuration and a fresh sender, one already streaming is untouched |
| Controller.TranslatorWindow.StartTranslationThread | src/main/java/com/litongjava/zoom/translator/ZoomRealtimeTranslatorUI.java:205-228 | a fresh translation thread: not interrupted, nothing taken, no error; its start is logged |
| Controller.TranslatorWindow.RunTranslation | src/main/java/com/litongjava/zoom/translator/ZoomRealtimeTranslatorUI.java:205-226 | the translation loop, translating with ("en", "zh-CN"), leaves exactly the state TranslatorRun gives |
| Controller.TranslatorWindow.StopTranslation | src/main/java/com/litongjava/zoom/translator/ZoomRealtimeTranslatorUI.java:231-254 | the log gains, in this order, the recorder stopped, recognition stopped, then, if the translation thread is alive, the sentinel offered to the text queue and the thread interrupted; a running line is stopped and closed, any other is untouched; only the two flags and the two interrupt statuses of recorder and session change |
| Controller.TranslatorWindow.InterruptTranslationThread | src/main/java/com/litongjava/zoom/translator/ZoomRealtimeTranslatorUI.java:247 | the translation thread's interrupt status is set and the interrupt logged |
| Controller.TranslateOneUtterance | src/main/java/com/litongjava/zoom/translator/ZoomRealtimeTranslatorUI.java:176-216 | after start, a final result "hello world" appears in the original-text area, and one translation turn puts its translation in the translated area |

## Left out

- Swing widgets, button enabling, dialogs and `SwingUtilities.invokeLater` are presentation only. The callback's `invokeLater` is modelled as running at once. The error dialog's message is kept as `translationFailure`.
- Device I/O is not modelled: `AudioSystem` and `Mixer` enumeration, `isLineSupported`, and the line's `read`. Reads are an input sequence. The line chosen is a mixer index or the default line rather than a `TargetDataLine` object.
- Capture.AudioRecorder.RunCapture: requires each read to report at most BUFFER_SIZE bytes and to fill exactly those, and a line that is not running to return no bytes. That is the device's contract for `read(buffer, 0, buffer.length)`, not the recorder's. The method does not state the log entries its puts add.
- Capture.DataLine: `start` takes effect only on an open line. `stopRecording` closes a running line and `startRecording` never reopens it, so after a stop and a restart the line does not run, and by `CaptureSilentWithoutAudio` nothing more is captured. The model keeps this behaviour as written.
- The Google Cloud clients and gRPC (`splitCall`, `LocationName` formatting) are foreign libraries. Credential loading from the resources file, `shutdown` and `awaitTermination` are also left out. The `setupServices` error path (a dialog, and the start button disabled) is presentation.
- Thread creation and `join` timeouts (1000 ms, 5000 ms) are not modelled; `volatile` visibility is taken as immediate. Interleaving granularity is one loop turn of a thread between calls of others.
- Controller.TranslatorWindow.StartTranslation: `startStreamingRecognize` runs on its own audio-processor thread in the source. Here it is called in sequence, so the model does not capture that thread starting it late. That thread's interrupt in `stopTranslation` is not modelled, because it has already returned.
- Controller.FirstFailureEndsLoop: the `Failure` path and `translationFailure` stand for the `IOException` that `translate` declares and the loop's `catch (IOException e)` reports. The generated translation client signals a failed call with an unchecked `ApiException` instead. Such a failure escapes the thread's `run`: it also ends the loop, but no "Translation Error" dialog is shown. The model does not distinguish the two.
- Controller.TranslatorWindow.StopTranslation: offering the sentinel and interrupting happen without a translation turn in between. Either way the thread leaves without translating the sentinel.
- Clearing the two text areas is not logged; `StartTranslation` states only that both are empty when it returns.
- Recognition.SpeechToTextService.OnResponse: when `get(0)` throws on an empty results or alternatives list, nothing is delivered. What the gRPC layer then does with the exception is not modelled.
- Logging, the `try/catch` around `substring` (the guard already makes it unreachable), and the `format` field of `AudioRecorder` (only passed to `open`) are left out.
- Controller.SearchAsWritten: models only the mixer search. The unsupported-format check before it is the same as in `GetAudioInputLine`.

## Findings

| source | as written | input that shows it | evidently intended | confidence | as-written member | corrected member |
|---|---|---|---|---|---|---|
| src/main/java/com/litongjava/zoom/translator/ZoomRealtimeTranslatorUI.java:137,158 | `af.equals(format)` compares against an `AudioFormat` created inside the method; `AudioFormat` inherits `Object.equals`, so this is identity | a mixer named "Stereo Mix" whose data line offers signed 16-bit 16 kHz mono little-endian PCM: it is passed by and the default line (possibly the microphone) is used | a mixer offering a format with the same encoding, rate, sample size, channels, frame size, frame rate and byte order is chosen (the library's `AudioFormat.matches`, which also accepts unspecified rates, would choose it too) | not executed; medium, since it rests on `javax.sound.sampled.AudioFormat` not overriding `equals` | Controller.StereoMixMissedAsWritten | Controller.GetAudioInputLine |
