/**
 * The finalization step of `stop-session`: up to three summarisation
 * attempts, each announced by `processing-start`, with an exponential
 * backoff between failed attempts, ending in exactly one
 * `processing-complete` or one `error`.
 *
 * The summarisation service is an oracle: `outcomes[k]` is what attempt
 * k + 1 (upload followed by generation) returns.
 */
module Finalization {
  import opened Protocol

  const MaxRetries: nat := 3
  const RetryDelayMs: nat := 2000
  const RetryFailedMessage := "Failed to process audio after multiple attempts. Please try again."

  /** The outcome of one upload-and-generate attempt. */
  datatype Attempt = Summarised(text: string) | Failed

  /** What one finalization emits, the delays it sleeps, and whether it succeeded. */
  datatype Trace = Trace(messages: seq<ServerMessage>, waits: seq<nat>, succeeded: bool)

  function Pow2(n: nat): nat
  {
    if n == 0 then 1 else 2 * Pow2(n - 1)
  }

  /** The delay after failed attempt number `attempt` (counted from 1). */
  function Backoff(attempt: nat): nat
    requires attempt >= 1
  {
    RetryDelayMs * Pow2(attempt - 1)
  }

  /** The delays after failed attempts 1 to n. */
  function Backoffs(n: nat): (ws: seq<nat>)
    ensures |ws| == n
  {
    if n == 0 then [] else Backoffs(n - 1) + [Backoff(n)]
  }

  /** The successive delays start at the base delay and double each time. */
  lemma {:induction false} BackoffsDouble(n: nat)
    ensures forall i :: 0 <= i < n ==> Backoffs(n)[i] == RetryDelayMs * Pow2(i)
    ensures n >= 1 ==> Backoffs(n)[0] == RetryDelayMs
    ensures forall i :: 0 <= i < n - 1 ==> Backoffs(n)[i + 1] == 2 * Backoffs(n)[i]
  {
    if n > 0 {
      BackoffsDouble(n - 1);
      assert Backoffs(n) == Backoffs(n - 1) + [Backoff(n)];
    }
  }

  /** `n` announcements of an attempt. */
  function Starts(n: nat): (ms: seq<ServerMessage>)
    ensures |ms| == n
    ensures forall i :: 0 <= i < n ==> ms[i] == ProcessingStart
  {
    if n == 0 then [] else Starts(n - 1) + [ProcessingStart]
  }

  /** The index of the first successful outcome, or the length if there is none. */
  function FirstSuccess(outcomes: seq<Attempt>): (k: nat)
    ensures k <= |outcomes|
    ensures forall j :: 0 <= j < k ==> outcomes[j].Failed?
    ensures k < |outcomes| ==> outcomes[k].Summarised?
  {
    if outcomes == [] || outcomes[0].Summarised? then 0 else 1 + FirstSuccess(outcomes[1..])
  }

  /** The finalization as the retry policy describes it. */
  function Expected(outcomes: seq<Attempt>, sessionId: string): Trace
    requires |outcomes| >= MaxRetries
  {
    var k := FirstSuccess(outcomes[..MaxRetries]);
    if k < MaxRetries then
      Trace(Starts(k + 1) + [ProcessingComplete(outcomes[k].text, sessionId)], Backoffs(k), true)
    else
      Trace(Starts(MaxRetries) + [ServerError(RetryFailedMessage)], Backoffs(MaxRetries - 1), false)
  }

  /** The number of attempts announced in a message sequence. */
  function Attempts(ms: seq<ServerMessage>): nat
  {
    if ms == [] then 0 else Attempts(ms[..|ms| - 1]) + (if ms[|ms| - 1] == ProcessingStart then 1 else 0)
  }

  lemma {:induction false} AttemptsOfStarts(n: nat, last: ServerMessage)
    requires last != ProcessingStart
    ensures Attempts(Starts(n) + [last]) == n
  {
    assert (Starts(n) + [last])[..n] == Starts(n);
    StartsAttempts(n);
  }

  lemma {:induction false} StartsAttempts(n: nat)
    ensures Attempts(Starts(n)) == n
  {
    if n > 0 {
      assert Starts(n)[..n - 1] == Starts(n - 1);
      StartsAttempts(n - 1);
    }
  }

  /**
   * Every finalization makes between one and three attempts, announces each
   * one, ends in exactly one terminal message, and sleeps once after every
   * failed attempt but the last, doubling the delay each time.
   */
  lemma RetryShape(outcomes: seq<Attempt>, sessionId: string)
    requires |outcomes| >= MaxRetries
    ensures 1 <= Attempts(Expected(outcomes, sessionId).messages) <= MaxRetries
    ensures |Expected(outcomes, sessionId).messages| == Attempts(Expected(outcomes, sessionId).messages) + 1
    ensures Expected(outcomes, sessionId).messages[|Expected(outcomes, sessionId).messages| - 1] != ProcessingStart
    ensures |Expected(outcomes, sessionId).waits| == Attempts(Expected(outcomes, sessionId).messages) - 1
    ensures forall i :: 0 <= i < |Expected(outcomes, sessionId).waits| ==>
      Expected(outcomes, sessionId).waits[i] == RetryDelayMs * Pow2(i)
  {
    var k := FirstSuccess(outcomes[..MaxRetries]);
    if k < MaxRetries {
      AttemptsOfStarts(k + 1, ProcessingComplete(outcomes[k].text, sessionId));
      BackoffsDouble(k);
    } else {
      AttemptsOfStarts(MaxRetries, ServerError(RetryFailedMessage));
      BackoffsDouble(MaxRetries - 1);
    }
  }

  /**
   * A finalization succeeds exactly when one of the three attempts does; it
   * then reports the first summary, and otherwise the retry error.
   */
  lemma RetryOutcome(outcomes: seq<Attempt>, sessionId: string)
    requires |outcomes| >= MaxRetries
    ensures Expected(outcomes, sessionId).succeeded <==> exists j :: 0 <= j < MaxRetries && outcomes[j].Summarised?
    ensures Expected(outcomes, sessionId).succeeded ==>
      var n := Attempts(Expected(outcomes, sessionId).messages);
      && 1 <= n <= MaxRetries
      && n < |Expected(outcomes, sessionId).messages|
      && (forall j :: 0 <= j < n - 1 ==> outcomes[j].Failed?)
      && outcomes[n - 1].Summarised?
      && Expected(outcomes, sessionId).messages[n] == ProcessingComplete(outcomes[n - 1].text, sessionId)
    ensures !Expected(outcomes, sessionId).succeeded ==>
      |Expected(outcomes, sessionId).messages| == MaxRetries + 1 &&
      Expected(outcomes, sessionId).messages[MaxRetries] == ServerError(RetryFailedMessage)
  {
    var k := FirstSuccess(outcomes[..MaxRetries]);
    if k < MaxRetries {
      AttemptsOfStarts(k + 1, ProcessingComplete(outcomes[k].text, sessionId));
      assert outcomes[k] == outcomes[..MaxRetries][k];
    } else {
      assert forall j :: 0 <= j < MaxRetries ==> outcomes[j] == outcomes[..MaxRetries][j];
    }
  }

  /** Three failures: three announcements, waits of 2000 and 4000 ms, then the error. */
  lemma RetriesExhausted(outcomes: seq<Attempt>, sessionId: string)
    requires |outcomes| >= MaxRetries
    requires forall j :: 0 <= j < MaxRetries ==> outcomes[j].Failed?
    ensures Expected(outcomes, sessionId) ==
      Trace([ProcessingStart, ProcessingStart, ProcessingStart, ServerError(RetryFailedMessage)], [2000, 4000], false)
  {
    assert forall j :: 0 <= j < MaxRetries ==> outcomes[..MaxRetries][j].Failed?;
    assert Starts(3) == [ProcessingStart, ProcessingStart, ProcessingStart];
    assert Backoffs(2) == [2000, 4000] by {
      assert Backoff(1) == 2000;
      assert Backoff(2) == 4000;
    }
  }

  /**
   * The retry loop of the `stop-session` handler: it counts attempts, emits
   * `processing-start` before each, and on a failure either sleeps the
   * backoff or, after the last attempt, emits the error.
   */
  method RetryLoop(outcomes: seq<Attempt>, sessionId: string) returns (messages: seq<ServerMessage>, waits: seq<nat>, succeeded: bool)
    requires |outcomes| >= MaxRetries
    ensures Trace(messages, waits, succeeded) == Expected(outcomes, sessionId)
  {
    var attempt: nat := 0;
    succeeded := false;
    messages, waits := [], [];
    while attempt < MaxRetries && !succeeded
      invariant attempt <= MaxRetries
      invariant !succeeded ==> forall j :: 0 <= j < attempt ==> outcomes[j].Failed?
      invariant !succeeded && attempt < MaxRetries ==> messages == Starts(attempt) && waits == Backoffs(attempt)
      invariant !succeeded && attempt == MaxRetries ==>
        messages == Starts(attempt) + [ServerError(RetryFailedMessage)] && waits == Backoffs(attempt - 1)
      invariant succeeded ==>
        && 1 <= attempt
        && FirstSuccess(outcomes[..MaxRetries]) == attempt - 1
        && messages == Starts(attempt) + [ProcessingComplete(outcomes[attempt - 1].text, sessionId)]
        && waits == Backoffs(attempt - 1)
    {
      attempt := attempt + 1;
      messages := messages + [ProcessingStart];
      match outcomes[attempt - 1]
      case Summarised(text) =>
        messages := messages + [ProcessingComplete(text, sessionId)];
        succeeded := true;
        assert forall j :: 0 <= j < attempt - 1 ==> outcomes[..MaxRetries][j].Failed?;
      case Failed =>
        if attempt < MaxRetries {
          waits := waits + [Backoff(attempt)];
        } else {
          messages := messages + [ServerError(RetryFailedMessage)];
        }
    }
    if !succeeded {
      assert forall j :: 0 <= j < MaxRetries ==> outcomes[..MaxRetries][j].Failed?;
    }
  }
}
