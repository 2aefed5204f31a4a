/**
 * The server's session registry and the recording files it writes, as
 * values. A record maps a session id to the socket that owns it, whether a
 * grace-period timer is pending, and the path of its file. The files are a
 * map from path to the chunks appended so far; a file's write stream is open
 * exactly while a record for it exists.
 *
 * Each handler of a socket sees its connection's `currentSessionId`, which
 * counts as bound only when it is present and non-empty (server.ts tests it
 * for truthiness).
 */
module SessionStore {
  import opened Wrappers
  import opened Protocol
  import opened Finalization

  type SocketId = string

  const GracePeriodMs: nat := 30000
  const FileExtension := ".webm"

  datatype Session = Session(socketId: SocketId, graceTimer: bool, filePath: string)

  datatype Store = Store(sessions: map<string, Session>, files: map<string, seq<Chunk>>)

  /** Where the recording of a session is written. */
  function FilePath(tempDir: string, sessionId: string): string
  {
    tempDir + "/" + sessionId + FileExtension
  }

  /** Different sessions are written to different files. */
  lemma FilePathInjective(tempDir: string, a: string, b: string)
    requires FilePath(tempDir, a) == FilePath(tempDir, b)
    ensures a == b
  {
    var n := |tempDir| + 1;
    assert |a| == |b|;
    assert a == FilePath(tempDir, a)[n..n + |a|];
    assert b == FilePath(tempDir, b)[n..n + |b|];
  }

  /** The contents of a file; a missing file reads as empty, as append mode creates it. */
  function FileContent(files: map<string, seq<Chunk>>, path: string): seq<Chunk>
  {
    if path in files then files[path] else []
  }

  /** The session a handler acts on: `currentSessionId` when it is truthy. */
  function Bound(current: Option<string>): Option<string>
  {
    if current.Some? && current.value != "" then current else None
  }

  /** Every record writes to its own file, and that file exists. */
  ghost predicate Inv(st: Store, tempDir: string)
  {
    forall id :: id in st.sessions ==>
      st.sessions[id].filePath == FilePath(tempDir, id) && FilePath(tempDir, id) in st.files
  }

  /** The sessions whose grace-period timer is pending. */
  function PendingTimers(st: Store): (ids: set<string>)
    ensures ids <= st.sessions.Keys
  {
    set id | id in st.sessions && st.sessions[id].graceTimer
  }

  /**
   * `start-session`: a known session is rebound to the socket and its timer
   * cancelled; an unknown one gets a record and its file is opened for
   * appending, keeping whatever the file already holds.
   */
  function Start(st: Store, tempDir: string, socketId: SocketId, sessionId: string): (r: Store)
    ensures r.sessions.Keys == st.sessions.Keys + {sessionId}
    ensures r.sessions[sessionId].socketId == socketId && !r.sessions[sessionId].graceTimer
    ensures sessionId in st.sessions ==> r.sessions[sessionId].filePath == st.sessions[sessionId].filePath && r.files == st.files
    ensures sessionId !in st.sessions ==>
      var path := FilePath(tempDir, sessionId);
      r.sessions[sessionId].filePath == path && r.files == st.files[path := FileContent(st.files, path)]
    ensures forall id :: id in st.sessions && id != sessionId ==> r.sessions[id] == st.sessions[id]
    ensures forall path :: FileContent(r.files, path) == FileContent(st.files, path)
    ensures Inv(st, tempDir) ==> Inv(r, tempDir)
  {
    if sessionId in st.sessions then
      st.(sessions := st.sessions[sessionId := st.sessions[sessionId].(socketId := socketId, graceTimer := false)])
    else
      var path := FilePath(tempDir, sessionId);
      Store(st.sessions[sessionId := Session(socketId, false, path)], st.files[path := FileContent(st.files, path)])
  }

  /** `audio-chunk`: the chunk is appended to the bound session's file, or dropped. */
  function Append(st: Store, current: Option<string>, chunk: Chunk): (r: Store)
    ensures r.sessions == st.sessions
    ensures Bound(current).Some? && Bound(current).value in st.sessions ==>
      var path := st.sessions[current.value].filePath;
      r.files == st.files[path := FileContent(st.files, path) + [chunk]]
    ensures !(Bound(current).Some? && Bound(current).value in st.sessions) ==> r == st
    ensures forall tempDir :: Inv(st, tempDir) ==> Inv(r, tempDir)
  {
    match Bound(current)
    case Some(id) =>
      if id in st.sessions then
        var path := st.sessions[id].filePath;
        st.(files := st.files[path := FileContent(st.files, path) + [chunk]])
      else st
    case None => st
  }

  /** A run of `audio-chunk` messages, oldest first. */
  function AppendAll(st: Store, current: Option<string>, chunks: seq<Chunk>): Store
  {
    if chunks == [] then st else Append(AppendAll(st, current, chunks[..|chunks| - 1]), current, chunks[|chunks| - 1])
  }

  /** The chunks of a connection reach its session's file in the order they were sent. */
  lemma {:induction false} AppendAllInOrder(st: Store, tempDir: string, current: Option<string>, chunks: seq<Chunk>)
    requires Inv(st, tempDir)
    requires Bound(current).Some? && current.value in st.sessions
    ensures AppendAll(st, current, chunks).sessions == st.sessions
    ensures var path := st.sessions[current.value].filePath;
      AppendAll(st, current, chunks).files == st.files[path := FileContent(st.files, path) + chunks]
    decreases |chunks|
  {
    var path := st.sessions[current.value].filePath;
    if chunks == [] {
      assert path in st.files;
      assert FileContent(st.files, path) + chunks == st.files[path];
    } else {
      var n := |chunks| - 1;
      AppendAllInOrder(st, tempDir, current, chunks[..n]);
      var prev := AppendAll(st, current, chunks[..n]);
      assert FileContent(prev.files, path) == FileContent(st.files, path) + chunks[..n];
      assert chunks == chunks[..n] + [chunks[n]];
      assert FileContent(prev.files, path) + [chunks[n]] == FileContent(st.files, path) + chunks;
    }
  }

  /**
   * A connection that never sent `start-session`, such as the one a client
   * transport opens when it reconnects, writes none of its chunks.
   */
  lemma {:induction false} UnboundChunksDropped(st: Store, chunks: seq<Chunk>)
    ensures AppendAll(st, None, chunks) == st
    decreases |chunks|
  {
    if chunks != [] {
      UnboundChunksDropped(st, chunks[..|chunks| - 1]);
    }
  }

  /** Appending to one session leaves every other session's file as it was. */
  lemma AppendIsolated(st: Store, tempDir: string, current: Option<string>, chunk: Chunk, other: string)
    requires Inv(st, tempDir)
    requires other in st.sessions && Bound(current) != Some(other)
    ensures var r := Append(st, current, chunk);
      FileContent(r.files, FilePath(tempDir, other)) == FileContent(st.files, FilePath(tempDir, other))
  {
    if Bound(current).Some? && current.value in st.sessions {
      if FilePath(tempDir, current.value) == FilePath(tempDir, other) {
        FilePathInjective(tempDir, current.value, other);
      }
    }
  }

  /**
   * The record half of `stop-session`: when the connection is bound to a
   * live session, the record is removed and its stream closed before the
   * finalization runs; the file is deleted only after a successful summary
   * and a successful unlink. Otherwise nothing is emitted or changed.
   */
  function Stop(st: Store, current: Option<string>, outcomes: seq<Attempt>, unlinkSucceeds: bool): (r: (Store, Trace))
    requires |outcomes| >= MaxRetries
    ensures !(Bound(current).Some? && current.value in st.sessions) ==> r == (st, Trace([], [], false))
    ensures Bound(current).Some? && current.value in st.sessions ==>
      var id := current.value;
      var path := st.sessions[id].filePath;
      && r.0.sessions == st.sessions - {id}
      && r.1 == Expected(outcomes, id)
      && (r.1.succeeded && unlinkSucceeds ==> r.0.files == st.files - {path})
      && (!(r.1.succeeded && unlinkSucceeds) ==> r.0.files == st.files)
  {
    match Bound(current)
    case Some(id) =>
      if id in st.sessions then
        var path := st.sessions[id].filePath;
        var t := Expected(outcomes, id);
        var files := if t.succeeded && unlinkSucceeds then st.files - {path} else st.files;
        (Store(st.sessions - {id}, files), t)
      else (st, Trace([], [], false))
    case None => (st, Trace([], [], false))
  }

  /** Stopping keeps every remaining record's file in place. */
  lemma StopPreservesInv(st: Store, tempDir: string, current: Option<string>, outcomes: seq<Attempt>, unlinkSucceeds: bool)
    requires |outcomes| >= MaxRetries
    requires Inv(st, tempDir)
    ensures Inv(Stop(st, current, outcomes, unlinkSucceeds).0, tempDir)
  {
    var r := Stop(st, current, outcomes, unlinkSucceeds).0;
    if Bound(current).Some? && current.value in st.sessions {
      forall id | id in r.sessions
        ensures FilePath(tempDir, id) in r.files
      {
        if FilePath(tempDir, id) == FilePath(tempDir, current.value) {
          FilePathInjective(tempDir, id, current.value);
        }
      }
    }
  }

  /**
   * `disconnect`: the bound session's grace timer is armed unless one is
   * already pending. The handler does not check which socket owns the
   * session.
   */
  function Disconnect(st: Store, current: Option<string>): (r: Store)
    ensures r.files == st.files && r.sessions.Keys == st.sessions.Keys
    ensures forall id :: id in st.sessions ==>
      r.sessions[id].socketId == st.sessions[id].socketId && r.sessions[id].filePath == st.sessions[id].filePath
    ensures PendingTimers(r) == PendingTimers(st) + (if Bound(current).Some? && current.value in st.sessions then {current.value} else {})
    ensures forall tempDir :: Inv(st, tempDir) ==> Inv(r, tempDir)
  {
    match Bound(current)
    case Some(id) =>
      if id in st.sessions && !st.sessions[id].graceTimer then
        st.(sessions := st.sessions[id := st.sessions[id].(graceTimer := true)])
      else st
    case None => st
  }

  /**
   * A grace timer fires, `GracePeriodMs` after the disconnect that armed it:
   * the session's record is removed and its stream closed, so the file keeps
   * what was written and takes no more.
   */
  function Expire(st: Store, sessionId: string): (r: Store)
    ensures r.sessions == st.sessions - {sessionId}
    ensures r.files == st.files
    ensures forall tempDir :: Inv(st, tempDir) ==> Inv(r, tempDir)
  {
    if sessionId in st.sessions then st.(sessions := st.sessions - {sessionId}) else st
  }

  /** A repeated `start-session` from the same socket changes nothing more. */
  lemma StartIdempotent(st: Store, tempDir: string, socketId: SocketId, sessionId: string)
    ensures Start(Start(st, tempDir, socketId, sessionId), tempDir, socketId, sessionId) == Start(st, tempDir, socketId, sessionId)
  {
  }

  /** A second disconnect arms no second timer. */
  lemma DisconnectIdempotent(st: Store, current: Option<string>)
    ensures Disconnect(Disconnect(st, current), current) == Disconnect(st, current)
  {
  }

  /**
   * Reconnection within the grace period: chunks written before the
   * disconnect and after the rebind land in one file, in order, and the
   * timer armed by the disconnect is cancelled by the rebind.
   */
  lemma GraceReconnect(st: Store, tempDir: string, first: SocketId, second: SocketId, sessionId: string, before: seq<Chunk>, after: seq<Chunk>)
    requires Inv(st, tempDir) && sessionId != ""
    ensures var s0 := Start(st, tempDir, first, sessionId);
      var s1 := AppendAll(s0, Some(sessionId), before);
      var s2 := Disconnect(s1, Some(sessionId));
      var s3 := Start(s2, tempDir, second, sessionId);
      var s4 := AppendAll(s3, Some(sessionId), after);
      var path := FilePath(tempDir, sessionId);
      && sessionId in PendingTimers(s2)
      && sessionId !in PendingTimers(s3)
      && sessionId in s4.sessions
      && s4.sessions[sessionId] == Session(second, false, path)
      && FileContent(s4.files, path) == FileContent(st.files, path) + before + after
  {
    var path := FilePath(tempDir, sessionId);
    var s0 := Start(st, tempDir, first, sessionId);
    assert s0.sessions[sessionId].filePath == path;
    AppendAllInOrder(s0, tempDir, Some(sessionId), before);
    var s1 := AppendAll(s0, Some(sessionId), before);
    var s2 := Disconnect(s1, Some(sessionId));
    var s3 := Start(s2, tempDir, second, sessionId);
    AppendAllInOrder(s3, tempDir, Some(sessionId), after);
    var s4 := AppendAll(s3, Some(sessionId), after);
    assert FileContent(s1.files, path) == FileContent(st.files, path) + before;
  }

  /**
   * Once a timer has reaped a session, chunks sent under its id are dropped,
   * a `stop-session` under it emits nothing, and the file keeps what it had.
   */
  lemma ReapIsFinal(st: Store, sessionId: string, chunk: Chunk, outcomes: seq<Attempt>, unlinkSucceeds: bool)
    requires |outcomes| >= MaxRetries
    ensures var r := Expire(st, sessionId);
      && Append(r, Some(sessionId), chunk) == r
      && Stop(r, Some(sessionId), outcomes, unlinkSucceeds) == (r, Trace([], [], false))
      && r.files == st.files
  {
  }

  /**
   * A socket that still holds a session id after another socket took the
   * session over arms the timer on that live session when it disconnects,
   * and the timer then removes the other socket's record.
   */
  lemma ForeignDisconnectReapsLiveSession(st: Store, tempDir: string, a: SocketId, b: SocketId, sessionId: string)
    requires a != b && sessionId != ""
    ensures var s1 := Start(st, tempDir, a, sessionId);
      var s2 := Start(s1, tempDir, b, sessionId);
      var s3 := Disconnect(s2, Some(sessionId));
      && s3.sessions[sessionId].socketId == b
      && sessionId in PendingTimers(s3)
      && sessionId !in Expire(s3, sessionId).sessions
  {
  }
}
