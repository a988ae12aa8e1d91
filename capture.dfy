/**
  * AudioRecorder: opens the capture line, and on its own thread reads fixed
  * size blocks of PCM audio and puts a copy of every non-empty block on the
  * audio queue.
  */
module Capture {
  import opened Common
  import opened Queues
  import opened Events

  const SAMPLE_RATE: int := 16000
  const SAMPLE_SIZE_IN_BITS: int := 16
  const CHANNELS: int := 1
  const SIGNED := true
  const BIG_ENDIAN := false

  /** Bytes per read, evaluated left to right in integer arithmetic exactly as the recorder declares it. */
  const BUFFER_SIZE: int := SAMPLE_RATE * SAMPLE_SIZE_IN_BITS / 8 * CHANNELS / 10

  /** One read buffer holds 100 ms of 16 kHz, 16-bit mono audio. */
  lemma BufferHoldsTenthOfASecond()
    ensures BUFFER_SIZE == 3200
    ensures BUFFER_SIZE * 10 == SAMPLE_RATE * (SAMPLE_SIZE_IN_BITS / 8) * CHANNELS
  {
  }

  /** The capture device (`TargetDataLine`), reduced to whether it is open and running. */
  class DataLine {
    var isOpen: bool
    var isRunning: bool
    /** The internal buffer size it was opened with. */
    var bufferSize: int

    constructor (isOpen: bool)
      ensures this.isOpen == isOpen && !isRunning
    {
      this.isOpen := isOpen;
      isRunning := false;
      bufferSize := 0;
    }

    method Open(size: int)
      modifies this
      ensures isOpen && bufferSize == size && isRunning == old(isRunning)
    {
      isOpen := true;
      bufferSize := size;
    }

    /** `start` has an effect only on an open line. */
    method Start()
      modifies this
      ensures isRunning == (old(isRunning) || isOpen) && isOpen == old(isOpen) && bufferSize == old(bufferSize)
    {
      if isOpen {
        isRunning := true;
      }
    }

    method Stop()
      modifies this
      ensures !isRunning && isOpen == old(isOpen) && bufferSize == old(bufferSize)
    {
      isRunning := false;
    }

    method Close()
      modifies this
      ensures !isOpen && !isRunning && bufferSize == old(bufferSize)
    {
      isOpen := false;
      isRunning := false;
    }
  }

  /** What one `line.read(buffer, 0, buffer.length)` returns: the count, and the bytes it wrote to buffer[0..count). */
  datatype ReadResult = ReadResult(count: int, data: Chunk)

  /** A read never reports more than the buffer holds, and fills exactly the bytes it reports. */
  predicate FitsBuffer(r: ReadResult) {
    r.count <= BUFFER_SIZE && |r.data| == (if r.count > 0 then r.count else 0)
  }

  /** The recording thread as the loop sees it: the shared flag, its interrupt status, whether it has left, and the queue. */
  datatype CaptureState = CaptureState(running: bool, interrupted: bool, exited: bool, queue: seq<Chunk>)

  /**
    * One turn of `while (running)`: a thread that finds the flag down leaves;
    * a read of n <= 0 bytes changes nothing; a read of n > 0 bytes puts a copy
    * of the n bytes, unless the thread was interrupted, in which case `put`
    * throws and the thread leaves.
    */
  function CaptureStep(s: CaptureState, r: ReadResult): CaptureState {
    if s.exited then s
    else if !s.running then s.(exited := true)
    else if r.count <= 0 then s
    else if s.interrupted then s.(exited := true)
    else s.(queue := s.queue + [r.data])
  }

  /** The recording thread handling the reads the line delivers, in order. */
  function CaptureRun(s: CaptureState, delivered: seq<ReadResult>): CaptureState
    decreases |delivered|
  {
    if delivered == [] then s else CaptureRun(CaptureStep(s, delivered[0]), delivered[1..])
  }

  /** The bytes of every read that returned n > 0, in read order. */
  function PositiveReads(delivered: seq<ReadResult>): seq<Chunk>
    decreases |delivered|
  {
    if delivered == [] then []
    else (if delivered[0].count > 0 then [delivered[0].data] else []) + PositiveReads(delivered[1..])
  }

  /** Every read returned no bytes. */
  predicate NoAudio(delivered: seq<ReadResult>) {
    forall i :: 0 <= i < |delivered| ==> delivered[i].count <= 0
  }

  /**
    * Reads that return no bytes enqueue nothing, whatever the flag and the
    * interrupt status; this is all a stopped or closed line delivers.
    */
  lemma {:induction false} CaptureSilentWithoutAudio(s: CaptureState, delivered: seq<ReadResult>)
    requires NoAudio(delivered)
    ensures CaptureRun(s, delivered).queue == s.queue
    decreases |delivered|
  {
    if delivered != [] {
      assert delivered[0].count <= 0;
      CaptureSilentWithoutAudio(CaptureStep(s, delivered[0]), delivered[1..]);
    }
  }

  /** A thread that has left the loop touches nothing more. */
  lemma {:induction false} CaptureExitedStays(s: CaptureState, delivered: seq<ReadResult>)
    requires s.exited
    ensures CaptureRun(s, delivered) == s
    decreases |delivered|
  {
    if delivered != [] {
      CaptureExitedStays(CaptureStep(s, delivered[0]), delivered[1..]);
    }
  }

  /** The loop never changes the flag or the interrupt status; only other threads do. */
  lemma {:induction false} CaptureKeepsFlags(s: CaptureState, delivered: seq<ReadResult>)
    ensures CaptureRun(s, delivered).running == s.running
    ensures CaptureRun(s, delivered).interrupted == s.interrupted
    decreases |delivered|
  {
    if delivered != [] {
      CaptureKeepsFlags(CaptureStep(s, delivered[0]), delivered[1..]);
    }
  }

  /**
    * While recording is on and nobody interrupts, every read of n > 0 bytes
    * lands on the queue as exactly those bytes, in read order, and reads of
    * n <= 0 bytes add nothing; the thread keeps going.
    */
  lemma {:induction false} CaptureEnqueuesEveryPositiveRead(s: CaptureState, delivered: seq<ReadResult>)
    requires s.running && !s.interrupted && !s.exited
    ensures var r := CaptureRun(s, delivered);
      r.queue == s.queue + PositiveReads(delivered) && r.running && !r.interrupted && !r.exited
    decreases |delivered|
  {
    if delivered == [] {
      assert s.queue + [] == s.queue;
    } else {
      var d := delivered[0];
      var added: seq<Chunk> := if d.count > 0 then [d.data] else [];
      var rest := PositiveReads(delivered[1..]);
      var next := CaptureStep(s, d);
      assert next.queue == s.queue + added && next.running && !next.interrupted && !next.exited;
      CaptureEnqueuesEveryPositiveRead(next, delivered[1..]);
      assert PositiveReads(delivered) == added + rest;
      AppendAssociates(s.queue, added, rest);
    }
  }

  lemma AppendAssociates<T>(a: seq<T>, b: seq<T>, c: seq<T>)
    ensures a + b + c == a + (b + c)
  {
  }

  /** Once `stopRecording` has lowered the flag, or the thread has left, nothing more is enqueued. */
  lemma {:induction false} CaptureSilentOnceStopped(s: CaptureState, delivered: seq<ReadResult>)
    requires !s.running || s.exited
    ensures CaptureRun(s, delivered).queue == s.queue
    decreases |delivered|
  {
    if delivered != [] {
      CaptureSilentOnceStopped(CaptureStep(s, delivered[0]), delivered[1..]);
    }
  }

  /**
    * Whatever the flag and interrupts do, the thread appends a prefix of the
    * positive reads' bytes: nothing is invented, skipped or reordered.
    */
  lemma {:induction false} CaptureAppendsPrefixOfReads(s: CaptureState, delivered: seq<ReadResult>)
    ensures s.queue <= CaptureRun(s, delivered).queue <= s.queue + PositiveReads(delivered)
    decreases |delivered|
  {
    if delivered == [] {
      PrefixOfAppend(s.queue, []);
    } else {
      var d := delivered[0];
      var next := CaptureStep(s, d);
      var added: seq<Chunk> := if d.count > 0 then [d.data] else [];
      var rest := PositiveReads(delivered[1..]);
      assert PositiveReads(delivered) == added + rest;
      assert CaptureRun(s, delivered) == CaptureRun(next, delivered[1..]);
      if s.exited || !s.running || (d.count > 0 && s.interrupted) {
        // the thread has left with the queue as it was
        CaptureExitedStays(next, delivered[1..]);
        PrefixOfAppend(s.queue, added + rest);
      } else {
        assert next.queue == s.queue + added;
        CaptureAppendsPrefixOfReads(next, delivered[1..]);
        PrefixThroughExtension(s.queue, added, CaptureRun(next, delivered[1..]).queue, rest);
      }
    }
  }

  lemma PrefixOfAppend<T>(a: seq<T>, b: seq<T>)
    ensures a <= a + b
  {
    assert (a + b)[..|a|] == a;
  }

  /** Prefix bounds around an extension of `a` widen to bounds around `a` itself. */
  lemma PrefixThroughExtension<T>(a: seq<T>, ext: seq<T>, r: seq<T>, rest: seq<T>)
    requires a + ext <= r <= a + ext + rest
    ensures a <= r <= a + (ext + rest)
  {
    assert a + ext + rest == a + (ext + rest);
    assert r[..|a|] == (a + ext)[..|a|] == a;
  }

  /** Every chunk read is non-empty and at most one buffer long. */
  lemma {:induction false} PositiveReadsFit(delivered: seq<ReadResult>)
    requires forall i :: 0 <= i < |delivered| ==> FitsBuffer(delivered[i])
    ensures |PositiveReads(delivered)| <= |delivered|
    ensures forall k :: 0 <= k < |PositiveReads(delivered)| ==> 0 < |PositiveReads(delivered)[k]| <= BUFFER_SIZE
    decreases |delivered|
  {
    if delivered != [] {
      PositiveReadsFit(delivered[1..]);
    }
  }

  class AudioRecorder {
    const line: DataLine
    const audioQueue: Channel<Chunk>
    /** Where starting and stopping the recorder are recorded. */
    const log: EventLog
    /** `running`, shared with the recording thread. */
    var running: bool
    /** `recordingThread != null`. */
    var threadStarted: bool
    /** The recording thread's interrupt status. */
    var threadInterrupted: bool
    /** The recording thread has left its loop (or none is running). */
    var threadExited: bool

    ghost function State(): CaptureState
      reads this, audioQueue
    {
      CaptureState(running, threadInterrupted, threadExited, audioQueue.items)
    }

    /** Opens the line with twice the read buffer, unless it is already open. */
    constructor (line: DataLine, audioQueue: Channel<Chunk>, log: EventLog)
      modifies line
      ensures this.line == line && this.audioQueue == audioQueue && this.log == log
      ensures !running && !threadStarted && threadExited
      ensures old(line.isOpen) ==> line.isOpen && line.bufferSize == old(line.bufferSize)
      ensures !old(line.isOpen) ==> line.isOpen && line.bufferSize == 2 * BUFFER_SIZE
      ensures line.isRunning == old(line.isRunning)
    {
      if !line.isOpen {
        line.Open(BUFFER_SIZE * 2);
      }
      this.line := line;
      this.audioQueue := audioQueue;
      this.log := log;
      running := false;
      threadStarted := false;
      threadInterrupted := false;
      threadExited := true;
    }

    /** `startRecording`: a no-op while running; otherwise raises the flag, starts the line and a fresh recording thread. */
    method StartRecording()
      modifies this, line, log
      ensures old(running) ==> unchanged(this) && unchanged(line) && unchanged(log)
      ensures !old(running) ==> running && threadStarted && !threadInterrupted && !threadExited
      ensures !old(running) ==> line.isRunning == (old(line.isRunning) || line.isOpen)
      ensures !old(running) ==> log.events == old(log.events) + [RecorderStarted]
      ensures line.isOpen == old(line.isOpen) && line.bufferSize == old(line.bufferSize)
    {
      if running {
        return;
      }
      running := true;
      line.Start();
      threadStarted, threadInterrupted, threadExited := true, false, false;
      log.events := log.events + [RecorderStarted];
    }

    /**
      * The recording thread's loop, handling the reads the line delivers. The
      * thread reuses one buffer and puts a fresh copy of its first n bytes.
      * A line that is not running delivers no audio.
      */
    method RunCapture(delivered: seq<ReadResult>)
      requires forall i :: 0 <= i < |delivered| ==> FitsBuffer(delivered[i])
      requires !line.isRunning ==> NoAudio(delivered)
      modifies this, audioQueue, audioQueue.log
      ensures State() == CaptureRun(old(State()), delivered)
      ensures threadStarted == old(threadStarted)
    {
      var buffer := new uint8[BUFFER_SIZE];
      var i := 0;
      while i < |delivered| && !threadExited
        invariant 0 <= i <= |delivered|
        invariant CaptureRun(State(), delivered[i..]) == CaptureRun(old(State()), delivered)
        invariant threadStarted == old(threadStarted)
        invariant buffer.Length == BUFFER_SIZE
      {
        var read := delivered[i];
        ghost var before := State();
        assert delivered[i..][0] == read && delivered[i..][1..] == delivered[i + 1..];
        if !running {
          threadExited := true;
        } else {
          // line.read(buffer, 0, buffer.length) writes the delivered bytes to the front of the buffer
          forall j | 0 <= j < |read.data| {
            buffer[j] := read.data[j];
          }
          var bytesRead := read.count;
          if bytesRead > 0 {
            var audioChunk := new uint8[bytesRead](j requires 0 <= j < bytesRead reads buffer => buffer[j]);
            assert audioChunk[..] == read.data;
            if threadInterrupted {
              // put throws InterruptedException and the thread leaves the loop
              threadExited := true;
            } else {
              audioQueue.Put(audioChunk[..]);
            }
          }
        }
        assert State() == CaptureStep(before, read);
        i := i + 1;
      }
      if i < |delivered| {
        CaptureExitedStays(State(), delivered[i..]);
      }
    }

    /**
      * `stopRecording`: lowers the flag, interrupts the recording thread if
      * there is one, and stops and closes the line only if it is running.
      */
    method StopRecording()
      modifies this`running, this`threadInterrupted, line, log
      ensures !running
      ensures threadInterrupted == (old(threadInterrupted) || threadStarted)
      ensures audioQueue.items == old(audioQueue.items)
      ensures old(line.isRunning) ==> !line.isRunning && !line.isOpen && line.bufferSize == old(line.bufferSize)
      ensures !old(line.isRunning) ==> unchanged(line)
      ensures log.events == old(log.events) + [RecorderStopped]
    {
      running := false;
      if threadStarted {
        threadInterrupted := true;
      }
      if line.isRunning {
        line.Stop();
        line.Close();
      }
      log.events := log.events + [RecorderStopped];
    }
  }
}
