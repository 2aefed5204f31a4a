/**
 * The socket server: one registry shared by every connection, and one
 * `Connection` per socket holding the handlers' closure variable
 * `currentSessionId` and the messages emitted to that socket. Each handler
 * runs to completion; its effect on the registry is the corresponding
 * function of `SessionStore`.
 */
module Server {
  import opened Wrappers
  import opened Protocol
  import opened Finalization
  import opened SessionStore

  /** The map of active sessions and the files of the temporary directory. */
  class SessionRegistry {
    const tempDir: string
    var sessions: map<string, Session>
    var files: map<string, seq<Chunk>>

    function State(): Store
      reads this
    {
      Store(sessions, files)
    }

    ghost predicate Valid()
      reads this
    {
      Inv(State(), tempDir)
    }

    /** Server start: no sessions, and whatever files the directory already holds. */
    constructor (tempDir: string, existing: map<string, seq<Chunk>>)
      ensures Valid()
      ensures this.tempDir == tempDir && sessions == map[] && files == existing
    {
      this.tempDir := tempDir;
      sessions := map[];
      files := existing;
    }

    /** A pending grace timer fires and reaps its session. */
    method FireGraceTimer(sessionId: string)
      requires Valid() && sessionId in PendingTimers(State())
      modifies this`sessions
      ensures Valid()
      ensures State() == Expire(old(State()), sessionId)
    {
      var expired := sessionId in sessions;
      if expired {
        sessions := sessions - {sessionId};
      }
    }
  }

  /** One socket's handlers and what they emitted to it. */
  class Connection {
    const socketId: SocketId
    var currentSessionId: Option<string>
    var outbox: seq<ServerMessage>

    constructor (socketId: SocketId)
      ensures this.socketId == socketId && currentSessionId == None && outbox == []
    {
      this.socketId := socketId;
      currentSessionId := None;
      outbox := [];
    }

    /** `start-session`; `isResume` only selects a log line. */
    method OnStartSession(reg: SessionRegistry, sessionId: string, isResume: bool)
      requires reg.Valid()
      modifies this`currentSessionId, reg`sessions, reg`files
      ensures reg.Valid()
      ensures currentSessionId == Some(sessionId)
      ensures reg.State() == Start(old(reg.State()), reg.tempDir, socketId, sessionId)
    {
      currentSessionId := Some(sessionId);
      var path := FilePath(reg.tempDir, sessionId);
      if sessionId in reg.sessions {
        var existing := reg.sessions[sessionId];
        reg.sessions := reg.sessions[sessionId := existing.(socketId := socketId, graceTimer := false)];
      } else {
        reg.files := reg.files[path := FileContent(reg.files, path)];
        reg.sessions := reg.sessions[sessionId := Session(socketId, false, path)];
      }
    }

    /** `audio-chunk`. */
    method OnAudioChunk(reg: SessionRegistry, chunk: Chunk)
      requires reg.Valid()
      modifies reg`files
      ensures reg.Valid()
      ensures reg.State() == Append(old(reg.State()), currentSessionId, chunk)
    {
      if currentSessionId.Some? && currentSessionId.value != "" {
        var id := currentSessionId.value;
        if id in reg.sessions {
          var path := reg.sessions[id].filePath;
          reg.files := reg.files[path := FileContent(reg.files, path) + [chunk]];
        }
      }
    }

    /**
     * `stop-session`: remove the record, run the retry loop against the
     * summarisation outcomes, delete the file after a success, and unbind.
     * Returns the delays slept between attempts.
     */
    method OnStopSession(reg: SessionRegistry, outcomes: seq<Attempt>, unlinkSucceeds: bool) returns (waits: seq<nat>)
      requires reg.Valid() && |outcomes| >= MaxRetries
      modifies this`currentSessionId, this`outbox, reg`sessions, reg`files
      ensures reg.Valid()
      ensures reg.State() == Stop(old(reg.State()), old(currentSessionId), outcomes, unlinkSucceeds).0
      ensures outbox == old(outbox) + Stop(old(reg.State()), old(currentSessionId), outcomes, unlinkSucceeds).1.messages
      ensures waits == Stop(old(reg.State()), old(currentSessionId), outcomes, unlinkSucceeds).1.waits
      ensures currentSessionId == if Bound(old(currentSessionId)).Some? then None else old(currentSessionId)
    {
      waits := [];
      if currentSessionId.Some? && currentSessionId.value != "" {
        var id := currentSessionId.value;
        if id in reg.sessions {
          StopPreservesInv(reg.State(), reg.tempDir, currentSessionId, outcomes, unlinkSucceeds);
          var path := reg.sessions[id].filePath;
          reg.sessions := reg.sessions - {id};
          var messages, slept, succeeded := RetryLoop(outcomes, id);
          outbox := outbox + messages;
          waits := slept;
          if succeeded && unlinkSucceeds {
            reg.files := reg.files - {path};
          }
        }
        currentSessionId := None;
      }
    }

    /** `disconnect`: arm the grace timer of the bound session. */
    method OnDisconnect(reg: SessionRegistry)
      requires reg.Valid()
      modifies reg`sessions
      ensures reg.Valid()
      ensures reg.State() == Disconnect(old(reg.State()), currentSessionId)
    {
      if currentSessionId.Some? && currentSessionId.value != "" {
        var id := currentSessionId.value;
        if id in reg.sessions && !reg.sessions[id].graceTimer {
          reg.sessions := reg.sessions[id := reg.sessions[id].(graceTimer := true)];
        }
      }
    }
  }
}
