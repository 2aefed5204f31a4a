/**
 * The client's recorder state machine: a finite transition table over seven
 * states that updates a three-field context. A (state, event) pair the table
 * does not list leaves the configuration unchanged, as the statechart
 * library does for events a state has no handler for.
 */
module RecorderMachine {
  import opened Wrappers

  datatype State = Idle | Recording | Paused | Reconnecting | Processing | Success | Errored

  datatype Context = Context(sessionId: Option<string>, error: Option<string>, queuedChunks: int)

  datatype Event =
    | Start(sessionId: string)
    | Stop
    | Pause
    | Resume
    | ServerConnected
    | ServerDisconnected
    | Error(error: string)
    | QueueUpdated(count: int)
    | Complete

  datatype Config = Config(state: State, ctx: Context)

  const EmptyContext := Context(None, None, 0)

  /** The machine's initial configuration. */
  const Initial := Config(Idle, EmptyContext)

  // The four named actions of the machine. Each reads the event the way
  // recorderMachine.ts does, including the fallback for an event of another type.

  function SetSessionId(ctx: Context, e: Event): Context
  {
    ctx.(sessionId := if e.Start? then Some(e.sessionId) else None)
  }

  /** Takes the context, as the assign action does, and discards all of it. */
  function ClearSession(ctx: Context): Context
  {
    EmptyContext
  }

  function SetError(ctx: Context, e: Event): Context
  {
    ctx.(error := Some(if e.Error? then e.error else "Unknown error"))
  }

  function UpdateQueueCount(ctx: Context, e: Event): Context
  {
    ctx.(queuedChunks := if e.QueueUpdated? then e.count else 0)
  }

  /** The (state, event) pairs the table lists. */
  predicate Handles(s: State, e: Event)
  {
    match s
    case Idle => e.Start?
    case Recording => e.Stop? || e.Pause? || e.ServerDisconnected? || e.Error? || e.QueueUpdated?
    case Paused => e.Resume? || e.Stop? || e.ServerDisconnected? || e.Error?
    case Reconnecting => e.ServerConnected? || e.Stop? || e.QueueUpdated?
    case Errored => e.Start?
    case Processing => e.Start? || e.Complete?
    case Success => e.Start?
  }

  /** One transition of the machine. */
  function Step(c: Config, e: Event): (r: Config)
    // unlisted pairs are no-ops
    ensures !Handles(c.state, e) ==> r == c
    // STOP is available from every active state and keeps the context
    ensures e.Stop? && c.state in {Recording, Paused, Reconnecting} ==> r == Config(Processing, c.ctx)
    // only COMPLETE in processing enters success
    ensures r.state == Success <==> (c.state == Success && !e.Start?) || (c.state == Processing && e.Complete?)
    // QUEUE_UPDATED changes the count and nothing else
    ensures e.QueueUpdated? && Handles(c.state, e) ==> r == Config(c.state, c.ctx.(queuedChunks := e.count))
    // ERROR records the message and keeps the session id and the count
    ensures e.Error? && Handles(c.state, e) ==> r == Config(Errored, c.ctx.(error := Some(e.error)))
    // START from error lands in idle with a cleared context
    ensures e.Start? && c.state == Errored ==> r == Initial
    // START from success begins a fresh run
    ensures e.Start? && c.state == Success ==> r == Config(Recording, Context(Some(e.sessionId), None, 0))
    // START from idle or processing only sets the session id
    ensures e.Start? && c.state in {Idle, Processing} ==> r == Config(Recording, c.ctx.(sessionId := Some(e.sessionId)))
  {
    match c.state
    case Idle =>
      (match e
       case Start(_) => Config(Recording, SetSessionId(c.ctx, e))
       case _ => c)
    case Recording =>
      (match e
       case Stop => Config(Processing, c.ctx)
       case Pause => Config(Paused, c.ctx)
       case ServerDisconnected => Config(Reconnecting, c.ctx)
       case Error(_) => Config(Errored, SetError(c.ctx, e))
       case QueueUpdated(_) => Config(Recording, UpdateQueueCount(c.ctx, e))
       case _ => c)
    case Paused =>
      (match e
       case Resume => Config(Recording, c.ctx)
       case Stop => Config(Processing, c.ctx)
       case ServerDisconnected => Config(Reconnecting, c.ctx)
       case Error(_) => Config(Errored, SetError(c.ctx, e))
       case _ => c)
    case Reconnecting =>
      (match e
       case ServerConnected => Config(Recording, c.ctx)
       case Stop => Config(Processing, c.ctx)
       case QueueUpdated(_) => Config(Reconnecting, UpdateQueueCount(c.ctx, e))
       case _ => c)
    case Errored =>
      (match e
       case Start(_) => Config(Idle, ClearSession(c.ctx))
       case _ => c)
    case Processing =>
      (match e
       case Start(_) => Config(Recording, SetSessionId(c.ctx, e))
       case Complete => Config(Success, c.ctx)
       case _ => c)
    case Success =>
      (match e
       case Start(_) => Config(Recording, SetSessionId(ClearSession(c.ctx), e))
       case _ => c)
  }

  /** The configuration after a sequence of events, oldest first. */
  function Run(c: Config, events: seq<Event>): Config
  {
    if events == [] then c else Step(Run(c, events[..|events| - 1]), events[|events| - 1])
  }

  /**
   * The invariant of every reachable configuration: the session id is absent
   * exactly in idle, an error message is present exactly in error, and idle
   * has no buffered chunks.
   */
  ghost predicate Inv(c: Config)
  {
    && (c.ctx.sessionId.None? <==> c.state == Idle)
    && (c.ctx.error.Some? <==> c.state == Errored)
    && (c.state == Idle ==> c.ctx.queuedChunks == 0)
  }

  lemma InitialInv()
    ensures Inv(Initial)
    ensures Initial.ctx.sessionId == None && Initial.ctx.error == None && Initial.ctx.queuedChunks == 0
  {
  }

  lemma StepPreservesInv(c: Config, e: Event)
    requires Inv(c)
    ensures Inv(Step(c, e))
  {
  }

  lemma {:induction false} RunAppend(c: Config, xs: seq<Event>, ys: seq<Event>)
    ensures Run(c, xs + ys) == Run(Run(c, xs), ys)
    decreases |ys|
  {
    if ys == [] {
      assert xs + ys == xs;
    } else {
      var n := |ys| - 1;
      assert (xs + ys)[..|xs + ys| - 1] == xs + ys[..n];
      assert (xs + ys)[|xs + ys| - 1] == ys[n];
      RunAppend(c, xs, ys[..n]);
    }
  }

  lemma {:induction false} RunPreservesInv(c: Config, events: seq<Event>)
    requires Inv(c)
    ensures Inv(Run(c, events))
    decreases |events|
  {
    if events != [] {
      RunPreservesInv(c, events[..|events| - 1]);
      StepPreservesInv(Run(c, events[..|events| - 1]), events[|events| - 1]);
    }
  }

  /** Every configuration reachable from the initial one satisfies the invariant. */
  lemma ReachableInv(events: seq<Event>)
    ensures Inv(Run(Initial, events))
  {
    InitialInv();
    RunPreservesInv(Initial, events);
  }

  /**
   * The ERROR that a failed microphone request sends while the machine is
   * idle is dropped, and so is a server ERROR while processing.
   */
  lemma ErrorIgnoredInIdleAndProcessing(c: Config, msg: string)
    requires c.state in {Idle, Processing}
    ensures Step(c, Error(msg)) == c
  {
  }

  /** QUEUE_UPDATED takes effect only while recording or reconnecting, and never changes the state. */
  lemma QueueUpdatedOnlyWhileStreaming(c: Config, n: int)
    ensures Step(c, QueueUpdated(n)).state == c.state
    ensures c.state in {Recording, Reconnecting} ==> Step(c, QueueUpdated(n)).ctx == c.ctx.(queuedChunks := n)
    ensures c.state !in {Recording, Reconnecting} ==> Step(c, QueueUpdated(n)) == c
  {
  }

  /** ERROR takes effect only from recording and paused. */
  lemma ErrorOnlyWhileCapturing(c: Config, msg: string)
    ensures Step(c, Error(msg)).state == Errored <==> c.state in {Recording, Paused, Errored}
    ensures c.state !in {Recording, Paused} ==> Step(c, Error(msg)) == c
  {
  }

  /** Pausing is not possible while reconnecting. */
  lemma NoPauseWhileReconnecting(c: Config)
    requires c.state == Reconnecting
    ensures Step(c, Pause) == c
  {
  }

  /**
   * Leaving error takes two STARTs: the first only resets to idle, the
   * second begins recording under its own session id.
   */
  lemma {:induction false} RestartFromError(c: Config, first: string, second: string)
    requires c.state == Errored
    ensures Run(c, [Start(first)]) == Initial
    ensures Run(c, [Start(first), Start(second)]) == Config(Recording, Context(Some(second), None, 0))
  {
    assert [Start(first), Start(second)][..1] == [Start(first)];
    assert [Start(first)][..0] == [];
  }
}
