/**
 * The client's audio-stream hook: it routes every recorded chunk either to
 * the socket or to a FIFO queue, drains the queue head-first when the socket
 * connects and when a recording stops, chooses the session id, and feeds
 * events to the recorder state machine.
 *
 * Everything the hook does that another party can observe, a socket emit or
 * an event sent to the machine, is appended to one trace in program order.
 */
module ClientStream {
  import opened Wrappers
  import opened Protocol
  import opened RecorderMachine

  const SessionPrefix := "session-"

  const PermissionMessage := "Microphone permission denied. Please allow access in your browser settings."
  const NoMicrophoneMessage := "No microphone found. Please connect a microphone."
  const InUseMessage := "Microphone is already in use by another application."
  const GenericMicrophoneMessage := "Failed to access microphone"
  const ProcessingFailedMessage := "Processing failed"

  /** What acquiring the microphone and creating the recorder threw. */
  datatype Fault = ErrorObject(name: string) | NonError

  /** The outcome of the microphone request in `startRecording`. */
  datatype Acquisition = Granted | Threw(fault: Fault)

  /** The `state` of the browser's media recorder. */
  datatype MediaState = MediaInactive | MediaRecording | MediaPaused

  /** One observable effect of the hook. */
  datatype Effect = Emitted(msg: ClientMessage) | Sent(event: Event)

  /** The user-facing message for a failed microphone request. */
  function MicrophoneErrorMessage(f: Fault): (msg: string)
    ensures msg == PermissionMessage <==> f == ErrorObject("NotAllowedError") || f == ErrorObject("PermissionDeniedError")
    ensures msg == NoMicrophoneMessage <==> f == ErrorObject("NotFoundError")
    ensures msg == InUseMessage <==> f == ErrorObject("NotReadableError")
    ensures msg == GenericMicrophoneMessage <==>
      !(f.ErrorObject? && f.name in {"NotAllowedError", "PermissionDeniedError", "NotFoundError", "NotReadableError"})
  {
    match f
    case NonError => GenericMicrophoneMessage
    case ErrorObject(name) =>
      if name == "NotAllowedError" || name == "PermissionDeniedError" then PermissionMessage
      else if name == "NotFoundError" then NoMicrophoneMessage
      else if name == "NotReadableError" then InUseMessage
      else GenericMicrophoneMessage
  }

  function DigitChar(d: nat): char
    requires d < 10
  {
    "0123456789"[d]
  }

  /** The decimal rendering of a clock reading, as a template literal prints it. */
  function Decimal(n: nat): string
  {
    if n < 10 then [DigitChar(n)] else Decimal(n / 10) + [DigitChar(n % 10)]
  }

  lemma {:induction false} DecimalLength(n: nat)
    ensures |Decimal(n)| >= 1
    ensures n >= 10 ==> |Decimal(n)| >= 2
  {
    if n >= 10 {
      DecimalLength(n / 10);
    }
  }

  /** Distinct clock readings give distinct decimal renderings. */
  lemma {:induction false} DecimalInjective(n: nat, m: nat)
    requires Decimal(n) == Decimal(m)
    ensures n == m
    decreases n
  {
    DecimalLength(n);
    DecimalLength(m);
    if n < 10 && m < 10 {
      assert Decimal(n)[0] == DigitChar(n);
      assert Decimal(m)[0] == DigitChar(m);
    } else if n >= 10 && m >= 10 {
      var dn, dm := Decimal(n), Decimal(m);
      assert dn[|dn| - 1] == DigitChar(n % 10);
      assert dm[|dm| - 1] == DigitChar(m % 10);
      assert dn[..|dn| - 1] == Decimal(n / 10);
      assert dm[..|dm| - 1] == Decimal(m / 10);
      DecimalInjective(n / 10, m / 10);
    }
  }

  /** The id minted for a new session at clock reading `now`. */
  function FreshSessionId(now: nat): string
  {
    SessionPrefix + Decimal(now)
  }

  /**
   * The session-id choice of `startRecording`: a stored, non-empty id is
   * resumed, anything else mints a fresh id.
   */
  function ChooseSession(stored: Option<string>, now: nat): (choice: (string, bool))
    ensures choice.1 <==> stored.Some? && stored.value != ""
    ensures choice.1 ==> choice.0 == stored.value
    ensures !choice.1 ==> choice.0 == FreshSessionId(now)
    ensures choice.0 != ""
  {
    if stored.Some? && stored.value != "" then (stored.value, true) else (FreshSessionId(now), false)
  }

  /** Once stored, the chosen id is resumed by every later choice. */
  lemma ChosenSessionIsResumed(stored: Option<string>, now: nat, later: nat)
    ensures ChooseSession(Some(ChooseSession(stored, now).0), later) == (ChooseSession(stored, now).0, true)
  {
  }

  /** Ids minted at different clock readings differ. */
  lemma FreshSessionIdsDiffer(t1: nat, t2: nat)
    requires t1 != t2
    ensures FreshSessionId(t1) != FreshSessionId(t2)
  {
    if FreshSessionId(t1) == FreshSessionId(t2) {
      assert FreshSessionId(t1)[|SessionPrefix|..] == Decimal(t1);
      assert FreshSessionId(t2)[|SessionPrefix|..] == Decimal(t2);
      DecimalInjective(t1, t2);
    }
  }

  /** The machine event for a server `error` message, whose text may be missing. */
  function ServerErrorEvent(message: Option<string>): (e: Event)
    ensures e.Error? && e.error != ""
    ensures message.Some? && message.value != "" ==> e.error == message.value
  {
    Error(if message.Some? && message.value != "" then message.value else ProcessingFailedMessage)
  }

  /**
   * The recording can be started from idle, error and success, and none of
   * them handles ERROR: a failed microphone request leaves the machine as it
   * was (in error, with the previous message), and the next START acts as if
   * the failure never happened.
   */
  lemma {:induction false} FailedStartIgnored(c: Config, fault: Fault, sessionId: string)
    requires c.state in {Idle, Errored, Success}
    ensures Run(c, [Error(MicrophoneErrorMessage(fault))]) == c
    ensures Run(c, [Error(MicrophoneErrorMessage(fault)), Start(sessionId)]) == Run(c, [Start(sessionId)])
    ensures c.state == Idle ==>
      Run(c, [Error(MicrophoneErrorMessage(fault)), Start(sessionId)]) == Config(Recording, c.ctx.(sessionId := Some(sessionId)))
  {
    var e := Error(MicrophoneErrorMessage(fault));
    ErrorOnlyWhileCapturing(c, e.error);
    assert [e, Start(sessionId)][..1] == [e];
    assert [e][..0] == [];
    assert [Start(sessionId)][..0] == [];
  }

  /** The chunks of the `audio-chunk` emits in a trace, in order. */
  function AudioOf(t: seq<Effect>): seq<Chunk>
  {
    if t == [] then []
    else AudioOf(t[..|t| - 1]) + (match t[|t| - 1] case Emitted(AudioChunk(c)) => [c] case _ => [])
  }

  /** The machine events of a trace, in order. */
  function EventsOf(t: seq<Effect>): seq<Event>
  {
    if t == [] then []
    else EventsOf(t[..|t| - 1]) + (match t[|t| - 1] case Sent(e) => [e] case _ => [])
  }

  /** The `audio-chunk` emits of a drained queue, head first. */
  function EmitAll(q: seq<Chunk>): (t: seq<Effect>)
    ensures |t| == |q|
  {
    if q == [] then [] else [Emitted(AudioChunk(q[0]))] + EmitAll(q[1..])
  }

  lemma {:induction false} AudioOfAppend(a: seq<Effect>, b: seq<Effect>)
    ensures AudioOf(a + b) == AudioOf(a) + AudioOf(b)
    decreases |b|
  {
    if b == [] {
      assert a + b == a;
    } else {
      var n := |b| - 1;
      assert (a + b)[..|a + b| - 1] == a + b[..n];
      assert (a + b)[|a + b| - 1] == b[n];
      AudioOfAppend(a, b[..n]);
    }
  }

  lemma {:induction false} EventsOfAppend(a: seq<Effect>, b: seq<Effect>)
    ensures EventsOf(a + b) == EventsOf(a) + EventsOf(b)
    decreases |b|
  {
    if b == [] {
      assert a + b == a;
    } else {
      var n := |b| - 1;
      assert (a + b)[..|a + b| - 1] == a + b[..n];
      assert (a + b)[|a + b| - 1] == b[n];
      EventsOfAppend(a, b[..n]);
    }
  }

  /** Draining a queue emits exactly its chunks, in queue order, and sends no event. */
  lemma {:induction false} EmitAllContents(q: seq<Chunk>)
    ensures AudioOf(EmitAll(q)) == q
    ensures EventsOf(EmitAll(q)) == []
    decreases |q|
  {
    if q != [] {
      EmitAllContents(q[1..]);
      assert EmitAll(q) == [Emitted(AudioChunk(q[0]))] + EmitAll(q[1..]);
      AudioOfAppend([Emitted(AudioChunk(q[0]))], EmitAll(q[1..]));
      EventsOfAppend([Emitted(AudioChunk(q[0]))], EmitAll(q[1..]));
      assert [Emitted(AudioChunk(q[0]))][..0] == [];
    }
  }

  lemma {:induction false} EmitAllSnoc(q: seq<Chunk>, c: Chunk)
    ensures EmitAll(q + [c]) == EmitAll(q) + [Emitted(AudioChunk(c))]
    decreases |q|
  {
    if q != [] {
      assert (q + [c])[1..] == q[1..] + [c];
      EmitAllSnoc(q[1..], c);
    }
  }

  lemma EmitOne(t: seq<Effect>, c: Chunk)
    ensures AudioOf(t + [Emitted(AudioChunk(c))]) == AudioOf(t) + [c]
    ensures EventsOf(t + [Emitted(AudioChunk(c))]) == EventsOf(t)
  {
    assert (t + [Emitted(AudioChunk(c))])[..|t|] == t;
  }

  lemma EmitOther(t: seq<Effect>, m: ClientMessage)
    requires !m.AudioChunk?
    ensures AudioOf(t + [Emitted(m)]) == AudioOf(t)
    ensures EventsOf(t + [Emitted(m)]) == EventsOf(t)
  {
    assert (t + [Emitted(m)])[..|t|] == t;
  }

  lemma SendOne(t: seq<Effect>, e: Event)
    ensures AudioOf(t + [Sent(e)]) == AudioOf(t)
    ensures EventsOf(t + [Sent(e)]) == EventsOf(t) + [e]
  {
    assert (t + [Sent(e)])[..|t|] == t;
  }

  lemma RunSnoc(events: seq<Event>, e: Event)
    ensures Run(Initial, events + [e]) == Step(Run(Initial, events), e)
  {
    assert (events + [e])[..|events|] == events;
  }

  class AudioStream {
    /** The recorder machine's current configuration. */
    var machine: Config
    /** Everything emitted on the socket and sent to the machine, oldest first. */
    var trace: seq<Effect>
    /** Whether the socket is connected. */
    var connected: bool
    /** Chunks recorded while the socket was disconnected, oldest first. */
    var queue: seq<Chunk>
    /** The media recorder, once one was created, and its state. */
    var recorder: Option<MediaState>
    /** The session id kept in local storage. */
    var stored: Option<string>
    /** Stop callbacks scheduled by `StopRecording` that have not run yet. */
    var pendingStops: nat
    /** The last summary received from the server. */
    var summary: Option<string>
    /** The non-empty chunks recorded so far, less those a disconnected stop discarded. */
    ghost var produced: seq<Chunk>

    /** The machine has consumed exactly the events of the trace. */
    ghost predicate Synced()
      reads this
    {
      machine == Run(Initial, EventsOf(trace))
    }

    /** The chunks emitted so far followed by the queue are the chunks produced. */
    ghost predicate Ordered()
      reads this
    {
      AudioOf(trace) + queue == produced
    }

    ghost predicate Valid()
      reads this
    {
      && Synced()
      && Ordered()
      && (connected ==> queue == [])
    }

    /** The hook as mounted: a fresh machine, a socket not yet connected, and what local storage holds. */
    constructor (storedAtLoad: Option<string>)
      ensures Valid()
      ensures machine == Initial && trace == [] && queue == [] && produced == []
      ensures !connected && recorder == None && stored == storedAtLoad && pendingStops == 0 && summary == None
    {
      machine := Initial;
      trace := [];
      connected := false;
      queue := [];
      recorder := None;
      stored := storedAtLoad;
      pendingStops := 0;
      summary := None;
      produced := [];
    }

    method Send(e: Event)
      requires Valid()
      modifies this`machine, this`trace
      ensures Valid()
      ensures trace == old(trace) + [Sent(e)]
      ensures machine == Step(old(machine), e)
    {
      SendOne(trace, e);
      RunSnoc(EventsOf(trace), e);
      trace := trace + [Sent(e)];
      machine := Step(machine, e);
    }

    method Emit(m: ClientMessage)
      requires Valid()
      requires !m.AudioChunk?
      modifies this`trace
      ensures Valid()
      ensures trace == old(trace) + [Emitted(m)]
    {
      EmitOther(trace, m);
      trace := trace + [Emitted(m)];
    }

    /** Sends the queue's chunks head-first until it is empty. */
    method DrainQueue()
      requires Synced() && Ordered()
      modifies this`trace, this`queue
      ensures Synced() && Ordered()
      ensures queue == []
      ensures trace == old(trace) + EmitAll(old(queue))
    {
      ghost var drained: seq<Chunk> := [];
      while |queue| > 0
        invariant |drained| <= |old(queue)|
        invariant drained == old(queue)[..|drained|]
        invariant queue == old(queue)[|drained|..]
        invariant trace == old(trace) + EmitAll(drained)
        decreases |queue|
      {
        var chunk := queue[0];
        EmitAllSnoc(drained, chunk);
        queue := queue[1..];
        trace := trace + [Emitted(AudioChunk(chunk))];
        drained := drained + [chunk];
      }
      assert drained == old(queue);
      AudioOfAppend(old(trace), EmitAll(drained));
      EventsOfAppend(old(trace), EmitAll(drained));
      EmitAllContents(drained);
      assert EventsOf(trace) == EventsOf(old(trace)) + [] == EventsOf(old(trace));
      assert machine == old(machine) == Run(Initial, EventsOf(old(trace)));
    }

    /** The socket's `connect` handler. */
    method OnConnect()
      requires Valid()
      modifies this`connected, this`machine, this`trace, this`queue
      ensures Valid()
      ensures connected
      ensures queue == []
      ensures trace == old(trace) + [Sent(ServerConnected)] + EmitAll(old(queue))
                       + (if |old(queue)| > 0 then [Sent(QueueUpdated(0))] else [])
    {
      Send(ServerConnected);
      connected := true;
      if |queue| > 0 {
        DrainQueue();
        Send(QueueUpdated(0));
      }
    }

    /** The socket's `disconnect` handler. */
    method OnDisconnect()
      requires Valid()
      modifies this`connected, this`machine, this`trace
      ensures Valid()
      ensures !connected
      ensures trace == old(trace) + [Sent(ServerDisconnected)]
    {
      connected := false;
      Send(ServerDisconnected);
    }

    /** The socket's `processing-complete` handler. */
    method OnProcessingComplete(text: string)
      requires Valid()
      modifies this`summary, this`machine, this`trace
      ensures Valid()
      ensures summary == Some(text)
      ensures trace == old(trace) + [Sent(Complete)]
    {
      summary := Some(text);
      Send(Complete);
    }

    /** The socket's `error` handler. */
    method OnServerError(message: Option<string>)
      requires Valid()
      modifies this`machine, this`trace
      ensures Valid()
      ensures trace == old(trace) + [Sent(ServerErrorEvent(message))]
    {
      Send(ServerErrorEvent(message));
    }

    /**
     * `startRecording`: on a granted microphone it creates the recorder,
     * chooses and stores the session id, emits `start-session` and then sends
     * START; on a failure it sends ERROR with the mapped message.
     */
    method StartRecording(acquisition: Acquisition, now: nat)
      requires Valid()
      modifies this`recorder, this`stored, this`machine, this`trace
      ensures Valid()
      ensures acquisition.Threw? ==>
        && trace == old(trace) + [Sent(Error(MicrophoneErrorMessage(acquisition.fault)))]
        && recorder == old(recorder) && stored == old(stored)
      ensures acquisition.Threw? && old(machine).state in {Idle, Errored, Success} ==> machine == old(machine)
      ensures acquisition.Granted? ==>
        var choice := ChooseSession(old(stored), now);
        && trace == old(trace) + [Emitted(StartSession(choice.0, choice.1)), Sent(Start(choice.0))]
        && stored == Some(choice.0)
        && recorder == Some(MediaRecording)
    {
      match acquisition
      case Threw(fault) =>
        Send(Error(MicrophoneErrorMessage(fault)));
      case Granted =>
        recorder := Some(MediaInactive);
        AnnounceSession(now);
        recorder := Some(MediaRecording);
    }

    /** Choose and store the session id, emit `start-session`, then send START. */
    method AnnounceSession(now: nat)
      requires Valid()
      modifies this`stored, this`machine, this`trace
      ensures Valid()
      ensures var choice := ChooseSession(old(stored), now);
        && trace == old(trace) + [Emitted(StartSession(choice.0, choice.1)), Sent(Start(choice.0))]
        && stored == Some(choice.0)
    {
      var choice := ChooseSession(stored, now);
      stored := Some(choice.0);
      Emit(StartSession(choice.0, choice.1));
      Send(Start(choice.0));
    }

    /** The recorder's `ondataavailable` handler. */
    method OnDataAvailable(chunk: Chunk)
      requires Valid()
      requires recorder.Some?
      modifies this`queue, this`machine, this`trace, this`produced
      ensures Valid()
      ensures |chunk| == 0 ==> trace == old(trace) && queue == old(queue) && produced == old(produced)
      ensures |chunk| > 0 ==> produced == old(produced) + [chunk]
      ensures |chunk| > 0 && connected ==>
        trace == old(trace) + [Emitted(AudioChunk(chunk))] && queue == old(queue)
      ensures |chunk| > 0 && !connected ==>
        && queue == old(queue) + [chunk]
        && trace == old(trace) + [Sent(QueueUpdated(|queue|))]
    {
      if |chunk| > 0 {
        if connected {
          EmitOne(trace, chunk);
          assert AudioOf(trace) + [chunk] + queue == produced + [chunk];
          trace := trace + [Emitted(AudioChunk(chunk))];
          produced := produced + [chunk];
        } else {
          assert AudioOf(trace) + (queue + [chunk]) == produced + [chunk];
          queue := queue + [chunk];
          produced := produced + [chunk];
          Send(QueueUpdated(|queue|));
        }
      }
    }

    /**
     * `stopRecording`: stops the recorder and schedules the stop callback;
     * without a recorder it does nothing.
     */
    method StopRecording()
      requires Valid()
      modifies this`recorder, this`pendingStops
      ensures Valid()
      ensures old(recorder).None? ==> recorder == old(recorder) && pendingStops == old(pendingStops)
      ensures old(recorder).Some? ==> recorder == Some(MediaInactive) && pendingStops == old(pendingStops) + 1
    {
      if recorder.Some? {
        recorder := Some(MediaInactive);
        pendingStops := pendingStops + 1;
      }
    }

    /** The connected half of the stop callback: drain the queue, then `stop-session`. */
    method FlushForStop()
      requires Valid() && connected
      modifies this`trace, this`queue
      ensures Valid() && queue == []
      ensures trace == old(trace) + EmitAll(old(queue)) + [Emitted(StopSession)]
      ensures old(queue) == [] && trace == old(trace) + [Emitted(StopSession)]
    {
      DrainQueue();
      Emit(StopSession);
    }

    /** The disconnected half of the stop callback: the queued chunks are lost. */
    method DiscardQueue()
      requires Valid()
      modifies this`queue, this`produced
      ensures Valid() && queue == []
      ensures produced + old(queue) == old(produced)
    {
      produced := AudioOf(trace);
      queue := [];
    }

    /**
     * The scheduled stop callback: when connected it drains the queue and
     * then emits `stop-session`; when not, the queued chunks are discarded.
     * Either way the stored id is removed, the queue emptied and STOP sent.
     */
    method OnStopTimer()
      requires Valid()
      requires pendingStops > 0
      modifies this`queue, this`stored, this`pendingStops, this`machine, this`trace, this`produced
      ensures Valid()
      ensures queue == [] && stored == None && pendingStops == old(pendingStops) - 1
      ensures connected ==>
        && trace == old(trace) + EmitAll(old(queue)) + [Emitted(StopSession)] + [Sent(Stop)]
        && produced == old(produced)
      ensures connected ==> old(queue) == [] && trace == old(trace) + [Emitted(StopSession), Sent(Stop)]
      ensures !connected ==>
        && trace == old(trace) + [Sent(Stop)]
        && produced + old(queue) == old(produced)
    {
      if connected {
        FlushForStop();
        assert EmitAll(old(queue)) == [];
      } else {
        DiscardQueue();
      }
      stored := None;
      queue := [];
      Send(Stop);
      pendingStops := pendingStops - 1;
    }

    /** `pauseRecording`: acts only while the recorder is recording. */
    method PauseRecording(now: int)
      requires Valid()
      modifies this`recorder, this`machine, this`trace
      ensures Valid()
      ensures old(recorder) == Some(MediaRecording) ==>
        && trace == old(trace) + [Emitted(PauseMarker(now, old(machine).ctx.sessionId)), Sent(Pause)]
        && recorder == Some(MediaPaused)
      ensures old(recorder) != Some(MediaRecording) ==> trace == old(trace) && recorder == old(recorder)
    {
      if recorder == Some(MediaRecording) {
        Emit(PauseMarker(now, machine.ctx.sessionId));
        recorder := Some(MediaPaused);
        Send(Pause);
      }
    }

    /** `resumeRecording`: acts only while the recorder is paused. */
    method ResumeRecording(now: int)
      requires Valid()
      modifies this`recorder, this`machine, this`trace
      ensures Valid()
      ensures old(recorder) == Some(MediaPaused) ==>
        && trace == old(trace) + [Emitted(ResumeMarker(now, old(machine).ctx.sessionId)), Sent(Resume)]
        && recorder == Some(MediaRecording)
      ensures old(recorder) != Some(MediaPaused) ==> trace == old(trace) && recorder == old(recorder)
    {
      if recorder == Some(MediaPaused) {
        Emit(ResumeMarker(now, machine.ctx.sessionId));
        recorder := Some(MediaRecording);
        Send(Resume);
      }
    }
  }
}
