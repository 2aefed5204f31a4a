# Session continuity of the audio transcription app, in Dafny

This project models the logic that keeps a recording session alive while the
network comes and goes, and proves what that logic promises:

- the **recorder state machine** of the browser client
  (`RecorderMachine`): a pure transition function over seven states and a
  three-field context, with its reachable-state invariant;
- the **audio-stream hook** (`ClientStream`): a class that routes each
  recorded chunk to the socket or to a FIFO queue, drains the queue head
  first on reconnect and on stop, picks and stores the session id, and feeds
  the machine. Every socket emit and machine event goes onto one trace in
  program order, and a ghost list of produced chunks carries the ordering
  invariant "chunks emitted, then the queue, are the chunks produced";
- the **server's session registry** (`SessionStore` as values, `Server` as
  classes): `start-session`, `audio-chunk`, `stop-session` and `disconnect`,
  the 30-second grace timer, and the recording files as a map from path to
  chunks. A file's write stream is open exactly while a record for it exists;
- the **finalization retry policy** (`Finalization`): at most three
  summarisation attempts with 2000 ms and 4000 ms backoff, ending in one
  `processing-complete` or one `error`. The summarisation service is an
  oracle: a sequence of per-attempt outcomes;
- the **sign-in / sign-up form** (`AuthForm`): the email, password and name
  checks, the validation gate before the auth client, and error clearing.

JavaScript details are modelled where they decide behaviour:

- truthiness: an empty `currentSessionId` is unbound on the server. An
  empty stored id is not resumed by the client. An empty server error
  message falls back to `'Processing failed'`;
- `String.prototype.length` counts UTF-16 code units, so a character outside
  the basic plane counts two toward the six-character password minimum;
- `\s` and `trim` use JavaScript's white-space set, not ASCII's.

The code's own comments promise more than it delivers on reconnects. The
client's `connect` handler says that flushing the queue "ensures no audio data
is lost during brief disconnects" (`app/components/client/hooks/useAudioStream.ts:37-38`),
and the server keeps its grace period "for reconnection" and cancels the
cleanup when a client reconnects (`server/server.ts:59`, `server/server.ts:84-85`).
In the code, the transport's automatic reconnect opens a new server connection
whose `currentSessionId` is null, and the client's `connect` handler drains the
queue without sending `start-session` again. The model follows the code:
`UnboundChunksDropped` proves those chunks are all dropped. The old
connection's grace timer then reaps the session. Order is preserved only when
the session is rebound by a new `start-session`, which `GraceReconnect` proves.

The start button is shown in idle, error and success
(`app/components/client/AudioRecorder.tsx:82`), so the microphone request of
`startRecording` runs in one of those three states, and none of them handles
ERROR: the machine takes ERROR only in recording and paused. A failed request
therefore sends an ERROR that the machine drops, although the machine's own
comment gives "mic permission denials" as the reason the event exists
(`recorderMachine.ts:10`). The mapped message never reaches the context: from
idle or success nothing is shown, and from error the previous message stays
on screen. The next START acts as if the failure never happened
(`FailedStartIgnored`).

## Model

| member | source | states |
|---|---|---|
| RecorderMachine.Step | app/components/client/machines/recorderMachine.ts:52-112 | unlisted (state, event) pairs change nothing; STOP reaches processing from recording, paused and reconnecting with the context kept; success is entered only by COMPLETE in processing and left only by START; QUEUE_UPDATED changes only the count; ERROR moves to error keeping session id and count; START from error resets to idle with an empty context, from success begins recording with a fresh context, from idle or processing sets only the session id |
| RecorderMachine.SetSessionId | app/components/client/machines/recorderMachine.ts:28-30 | the `setSessionId` action: the session id becomes the START event's id, or null for any other event |
| RecorderMachine.ClearSession | app/components/client/machines/recorderMachine.ts:31-35 | the `clearSession` action: session id, error and queued count all reset |
| RecorderMachine.SetError | app/components/client/machines/recorderMachine.ts:36-38 | the `setError` action: the error becomes the ERROR event's message, or 'Unknown error' for any other event |
| RecorderMachine.UpdateQueueCount | app/components/client/machines/recorderMachine.ts:39-41 | the `updateQueueCount` action: the count becomes the QUEUE_UPDATED event's count, or 0 for any other event |
| RecorderMachine.Run | app/components/client/machines/recorderMachine.ts:52-112 | the configuration after a sequence of events, applying the table one event at a time, oldest first |
| RecorderMachine.InitialInv | app/components/client/machines/recorderMachine.ts:45-50 | the initial configuration is idle with no session id, no error and zero queued chunks, and satisfies the invariant |
| RecorderMachine.StepPreservesInv | app/components/client/machines/recorderMachine.ts:28-112 | every transition keeps: no session id exactly in idle, an error exactly in error, no queued chunks in idle |
| RecorderMachine.RunPreservesInv | app/components/client/machines/recorderMachine.ts:52-112 | any sequence of events from a configuration satisfying the invariant keeps it |
| RecorderMachine.ReachableInv | app/components/client/machines/recorderMachine.ts:45-112 | every configuration reachable from the initial one satisfies the invariant |
| RecorderMachine.RunAppend | app/components/client/machines/recorderMachine.ts:52-112 | running two event sequences in turn is running their concatenation |
| RecorderMachine.ErrorIgnoredInIdleAndProcessing | app/components/client/machines/recorderMachine.ts:52-103 | ERROR in idle or processing is a no-op |
| RecorderMachine.NoPauseWhileReconnecting | app/components/client/machines/recorderMachine.ts:77-83 | PAUSE in reconnecting is a no-op |
| RecorderMachine.QueueUpdatedOnlyWhileStreaming | app/components/client/machines/recorderMachine.ts:60-83 | QUEUE_UPDATED never changes the state, sets the count in recording and reconnecting, and is a no-op elsewhere |
| RecorderMachine.ErrorOnlyWhileCapturing | app/components/client/machines/recorderMachine.ts:60-91 | after ERROR the state is error exactly when it was recording, paused or error; outside recording and paused it is a no-op |
| RecorderMachine.RestartFromError | app/components/client/machines/recorderMachine.ts:84-91 | from error one START lands in idle with an empty context and a second START records under its own id |
| ClientStream.MicrophoneErrorMessage | app/components/client/hooks/useAudioStream.ts:136-148 | each message is produced exactly for its error names; anything else, including a non-Error throw, gives the generic message |
| ClientStream.ChooseSession | app/components/client/hooks/useAudioStream.ts:95-100 | a stored non-empty id is resumed with isResume set, otherwise `session-<now>` is minted with isResume clear; the id is never empty |
| ClientStream.ChosenSessionIsResumed | app/components/client/hooks/useAudioStream.ts:95-105 | once the chosen id is stored, every later choice resumes it |
| ClientStream.FreshSessionIdsDiffer | app/components/client/hooks/useAudioStream.ts:99 | ids minted at different clock readings differ |
| ClientStream.DecimalInjective | app/components/client/hooks/useAudioStream.ts:99 | distinct clock readings render to distinct decimal strings |
| ClientStream.Decimal | app/components/client/hooks/useAudioStream.ts:99 | the base-ten rendering of a clock reading that a template literal prints, most significant digit first |
| ClientStream.FreshSessionId | app/components/client/hooks/useAudioStream.ts:99 | the minted id `session-<now>` |
| ClientStream.ServerErrorEvent | app/components/client/hooks/useAudioStream.ts:68-71 | the error state always has a non-empty message to show, and it is the server's own text whenever the server sent a non-empty one |
| ClientStream.EmitAllContents | app/components/client/hooks/useAudioStream.ts:42-47 | draining a queue emits exactly its chunks in queue order and sends no machine event |
| ClientStream.EmitAllSnoc | app/components/client/hooks/useAudioStream.ts:42-47 | draining one more chunk appends its emit at the end |
| ClientStream.AudioOfAppend | app/components/client/hooks/useAudioStream.ts:45 | the chunks emitted by two trace segments are those of the first followed by those of the second |
| ClientStream.EventsOfAppend | app/components/client/hooks/useAudioStream.ts:35 | the events sent by two trace segments are those of the first followed by those of the second |
| ClientStream.AudioStream.constructor | app/components/client/hooks/useAudioStream.ts:12-31 | the mounted hook has the initial machine, an empty trace and queue, no recorder, a disconnected socket and the stored id from local storage |
| ClientStream.AudioStream.Send | app/components/client/hooks/useAudioStream.ts:13 | one machine `send`: the event goes onto the trace and the machine takes its step |
| ClientStream.AudioStream.Emit | app/components/client/hooks/useAudioStream.ts:109 | one socket emit other than an audio chunk goes onto the trace; the machine and the queue are unchanged |
| ClientStream.AudioStream.DrainQueue | app/components/client/hooks/useAudioStream.ts:42-47 | the loop empties the queue, appends one `audio-chunk` emit per queued chunk in order, and keeps the machine in step and the ordering invariant |
| ClientStream.AudioStream.OnConnect | app/components/client/hooks/useAudioStream.ts:33-52 | sends SERVER_CONNECTED, drains the queue head first, and sends QUEUE_UPDATED(0) only when the queue was non-empty |
| ClientStream.AudioStream.OnDisconnect | app/components/client/hooks/useAudioStream.ts:73-76 | marks the socket disconnected and sends SERVER_DISCONNECTED |
| ClientStream.AudioStream.OnProcessingComplete | app/components/client/hooks/useAudioStream.ts:61-65 | stores the summary and sends COMPLETE |
| ClientStream.AudioStream.OnServerError | app/components/client/hooks/useAudioStream.ts:68-71 | sends the ERROR given by ServerErrorEvent |
| ClientStream.AudioStream.StartRecording | app/components/client/hooks/useAudioStream.ts:83-150 | on a granted microphone stores the chosen id and emits `start-session` before sending START; on a failure sends ERROR with the mapped message and changes nothing else; a failure from idle, error or success leaves the machine as it was |
| ClientStream.FailedStartIgnored | app/components/client/hooks/useAudioStream.ts:133-148 | from idle, error or success (where a recording can be started) a failed microphone request's ERROR is dropped: the machine is unchanged, the next START acts as if the failure never happened, and from idle it records |
| ClientStream.AudioStream.AnnounceSession | app/components/client/hooks/useAudioStream.ts:95-110 | stores the chosen id, emits `start-session` with it and its resume flag, then sends START with the same id |
| ClientStream.AudioStream.OnDataAvailable | app/components/client/hooks/useAudioStream.ts:113-127 | an empty chunk is ignored; otherwise it is emitted at once when connected, or appended to the queue tail with QUEUE_UPDATED carrying the new length; the ordering invariant holds after either |
| ClientStream.AudioStream.StopRecording | app/components/client/hooks/useAudioStream.ts:152-158 | with a recorder, stops it and schedules the stop callback; without one, does nothing |
| ClientStream.AudioStream.OnStopTimer | app/components/client/hooks/useAudioStream.ts:159-182 | connected: the queue is already empty (every chunk went straight to the socket), so the flush loop at useAudioStream.ts:162-167 emits nothing and the stop emits only `stop-session`, then STOP; disconnected: emits nothing and discards the queue; both remove the stored id and empty the queue |
| ClientStream.AudioStream.FlushForStop | app/components/client/hooks/useAudioStream.ts:160-169 | emits every queued chunk in queue order, then one `stop-session`; since a connected stream never holds a queue, this emits only `stop-session` (see OnStopTimer) |
| ClientStream.AudioStream.DiscardQueue | app/components/client/hooks/useAudioStream.ts:170-180 | a disconnected stop empties the queue, and its chunks leave the produced sequence unsent |
| ClientStream.AudioStream.PauseRecording | app/components/client/hooks/useAudioStream.ts:186-198 | acts only while recording: emits the pause marker with the machine's session id, then sends PAUSE; otherwise emits and sends nothing |
| ClientStream.AudioStream.ResumeRecording | app/components/client/hooks/useAudioStream.ts:200-211 | acts only while paused: emits the resume marker, then sends RESUME; otherwise emits and sends nothing |
| Finalization.FirstSuccess | server/server.ts:144-149 | the index of the first successful attempt: every earlier attempt failed, and it succeeded unless it is past the end |
| Finalization.Backoff | server/server.ts:307-310 | the delay after failed attempt n is 2000 ms times 2^(n-1) |
| Finalization.Expected | server/server.ts:138-325 | the retry policy: up to three announced attempts; the first success ends with its summary after the delays of the failures before it, and three failures end with the retry error after two delays |
| Finalization.BackoffsDouble | server/server.ts:307-310 | the delays after failed attempts start at 2000 ms and double each time |
| Finalization.RetryShape | server/server.ts:138-325 | one to three attempts, each announced by `processing-start`, one terminal message last, and one backoff sleep per failed attempt but the last |
| Finalization.RetryOutcome | server/server.ts:144-325 | the finalization succeeds exactly when one of the three attempts does, then reports the first summary with the session id; otherwise it ends in the retry error |
| Finalization.RetriesExhausted | server/server.ts:307-325 | three failures give three `processing-start`, waits of 2000 and 4000 ms, and exactly one `error` with the retry message |
| Finalization.RetryLoop | server/server.ts:140-325 | the loop's emits, sleeps and success flag are those of the retry policy for every sequence of outcomes |
| SessionStore.FilePathInjective | server/server.ts:79 | under plain concatenation of the temporary directory and the id (not `path.join`), different session ids are written to different files |
| SessionStore.FilePath | server/server.ts:79 | a session's file is the temporary directory, a separator, the id and `.webm` |
| SessionStore.Start | server/server.ts:75-100 | the id gets a record owned by this socket with no pending timer; a known record keeps its file and nothing else changes; an unknown one writes to `<tempDir>/<id>.webm` and existing file content is kept; other records are untouched and the invariant is kept |
| SessionStore.StartIdempotent | server/server.ts:81-89 | repeating `start-session` from the same socket changes nothing further |
| SessionStore.Append | server/server.ts:103-110 | a chunk is appended to the bound session's file; with no bound id or no record it is dropped; records never change |
| SessionStore.AppendAllInOrder | server/server.ts:103-110 | a run of chunks lands at the end of the session's file in arrival order, and no other file changes |
| SessionStore.AppendIsolated | server/server.ts:103-110 | under the plain-concatenation paths, writing to one session never changes another session's file |
| SessionStore.UnboundChunksDropped | server/server.ts:72-110 | a connection that never sent `start-session` writes none of its chunks |
| SessionStore.Stop | server/server.ts:121-333 | with a bound live record: the record is removed, the finalization trace is the retry policy's, and the file is deleted only after a success and a successful unlink; otherwise nothing is emitted or changed |
| SessionStore.StopPreservesInv | server/server.ts:124-134 | after a stop every remaining record still has its own file |
| SessionStore.Disconnect | server/server.ts:335-356 | arms a timer only for a bound live record without one; never removes a record, changes an owner or touches a file |
| SessionStore.DisconnectIdempotent | server/server.ts:342 | a second disconnect arms no second timer |
| SessionStore.Expire | server/server.ts:345-352 | a firing timer removes the record and keeps the file as written |
| SessionStore.GraceReconnect | server/server.ts:75-356 | disconnect then `start-session` from a new socket within the grace period: the timer is armed then cancelled, the record moves to the new socket, and chunks before and after land in one file in order |
| SessionStore.ReapIsFinal | server/server.ts:345-352 | after a reap, chunks under that id are dropped, a stop emits nothing, and the file keeps what it had |
| SessionStore.ForeignDisconnectReapsLiveSession | server/server.ts:338-353 | when socket A still holds an id that socket B took over, A's disconnect arms the timer on B's live session, and the timer removes it |
| Server.SessionRegistry.constructor | server/server.ts:53-65 | the registry starts with no sessions over the existing temporary directory |
| Server.SessionRegistry.FireGraceTimer | server/server.ts:345-352 | a pending timer reaps its session as Expire says, keeping the invariant |
| Server.Connection.constructor | server/server.ts:70-72 | a new connection has no bound session and has emitted nothing |
| Server.Connection.OnStartSession | server/server.ts:75-100 | binds the connection to the id and updates the registry as Start says |
| Server.Connection.OnAudioChunk | server/server.ts:103-110 | updates the files as Append says |
| Server.Connection.OnStopSession | server/server.ts:121-333 | removes the record, runs RetryLoop, emits its messages, deletes the file after a success, and unbinds, as Stop says |
| Server.Connection.OnDisconnect | server/server.ts:335-356 | arms the grace timer as Disconnect says |
| AuthForm.EmailRegexEquivalence | app/page.tsx:32 | the position-by-position email check accepts exactly the language of `^[^\s@]+@[^\s@]+\.[^\s@]+$` |
| AuthForm.IsValidEmail | app/page.tsx:32 | the email shape checked position by position: no white space, exactly one '@' with something before it, and a '.' after the character following the '@' and before the last character |
| AuthForm.ValidEmailMatches | app/page.tsx:32 | a string passing the positional check splits into three `[^\s@]+` runs around the '@' and a '.' |
| AuthForm.MatchIsValidEmail | app/page.tsx:32 | a string the regex matches has no white space, one '@' after a non-empty local part, and a '.' strictly inside the domain |
| AuthForm.EmailError | app/page.tsx:34-38 | 'Email is required' exactly for the empty email, the invalid-address message exactly for a non-empty one the regex rejects, no error exactly when it matches |
| AuthForm.Utf16Length | app/page.tsx:42 | a password's JavaScript length lies between its character count and twice that |
| AuthForm.PasswordError | app/page.tsx:40-44 | 'Password is required' exactly for the empty password, the too-short message exactly for 1 to 5 UTF-16 units, no error exactly from 6 |
| AuthForm.PasswordLengthBounds | app/page.tsx:40-44 | six characters always pass and fewer than three never do |
| AuthForm.TrimStartEmpty | app/page.tsx:46 | trimming the start leaves nothing exactly when the name is all white space |
| AuthForm.TrimStart | app/page.tsx:46 | removes the leading white space and only it: the result is a suffix, everything cut off is white space, and a non-empty result starts with a non-space |
| AuthForm.TrimEndEmpty | app/page.tsx:46 | trimming the end leaves nothing exactly when the name is all white space |
| AuthForm.TrimEnd | app/page.tsx:46 | removes the trailing white space and only it: the result is a prefix, everything cut off is white space, and a non-empty result ends with a non-space |
| AuthForm.Trim | app/page.tsx:46 | the trimmed name is empty exactly when every character is white space, and otherwise has no white space at either end |
| AuthForm.NameError | app/page.tsx:46-48 | 'Name is required' exactly in sign-up mode for a name of white space only, never in sign-in mode |
| AuthForm.ValidIff | app/page.tsx:30-52 | the form passes exactly when the regex matches the email, the password has at least 6 UTF-16 units and, in sign-up mode, the name has a non-space character |
| AuthForm.Validate | app/page.tsx:30-51 | the error record `validateForm` stores: the email, password and name errors of the current fields |
| AuthForm.SignInIgnoresName | app/page.tsx:46-48 | in sign-in mode the name does not affect validation |
| AuthForm.AuthPage.constructor | app/page.tsx:21-28 | empty fields, sign-in mode, not loading, no errors, no request made |
| AuthForm.AuthPage.ValidateForm | app/page.tsx:30-52 | stores the error record of the current fields and returns true exactly when it is empty |
| AuthForm.AuthPage.HandleAuth | app/page.tsx:54-72 | validates first; only a passing form raises the loading flag and hands sign-up (with name) or sign-in (without) to the auth client |
| AuthForm.AuthPage.AuthSettled | app/page.tsx:65-71 | the loading flag drops once the call settles; a return and a throw are handled alike (the `finally`) |
| AuthForm.AuthPage.SelectTab | app/page.tsx:165-177 | switching tab sets the mode and clears every error |
| AuthForm.AuthPage.EditName | app/page.tsx:200-203 | editing the name clears only the name error |
| AuthForm.AuthPage.EditEmail | app/page.tsx:227-230 | editing the email clears only the email error |
| AuthForm.AuthPage.EditPassword | app/page.tsx:253-256 | editing the password clears only the password error |

## Left out

- The socket.io transport, its reconnection settings and its buffering of emits while disconnected: connect and disconnect are input events, and an emit is an entry on the trace.
- The browser's media APIs: microphone acquisition is an input outcome (granted, or the error thrown), a chunk is an opaque byte sequence, and the recorder's state is one field. The 1000 ms chunk interval is not modelled.
- The summarisation service (upload, generation, prompt text): it is an oracle giving each attempt's outcome.
- `fs` streams, mkdir, existsSync and statSync: a file is a sequence of chunks and a stream is open while its record exists. Whether an unlink succeeds is an input. `path.join` normalisation is not modelled; the path is the plain concatenation.
- Time: the 100 ms stop delay, the 30 s grace period and the backoff sleeps become explicit steps (`OnStopTimer`, `FireGraceTimer`) or recorded delay values. `Date.now` is a parameter.
- Interleaving of the asynchronous `stop-session` handler with other socket events across its awaits: each handler runs to completion.
- The pause and resume markers on the server, which only log, and all logging, server setup and the API-key check.
- Local storage is a single optional string.
- Rendering in the recorder component and the page; the auth client and its configuration. Its result is not modelled beyond the loading flag.
- Server.SessionRegistry.FireGraceTimer: requires a pending timer, because a cancelled timer never fires. The branch where the record is already gone is covered by `Expire` but cannot occur in the model.
- ClientStream.AudioStream.StartRecording: a second call while a recorder exists replaces the recorder in useAudioStream.ts; the model keeps one recorder field. A throw from starting the recorder after the session was announced is not modelled.
- AuthForm.AuthPage.HandleAuth: requires the loading flag to be down, because the submit button is disabled while a request is in flight (app/page.tsx:273-274).
