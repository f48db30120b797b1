/**
 * The hub's worker slot (src/JackTripWorker.cpp:62-275, 357-361): it is
 * configured for one client, runs the handshake and the JackTrip session on
 * a pool thread, and gives itself back to the hub listener with
 * releaseThread(id).
 *
 * The `spawning` flag tells the hub whether the slot is in set-up or
 * tear-down. The model keeps a ghost log of every write to that flag, every
 * releaseThread call and the blocking session wait, so that the order of
 * these steps can be stated; the mutex around the flag is not modelled.
 */
module WorkerSlot {
  import opened Wrappers
  import opened Channels
  import opened SessionCalls
  import opened Handshake

  /** The steps of a worker's life that the hub can observe. */
  datatype Event =
    | SpawningSet(spawning: bool)  // mSpawning is assigned
    | ThreadReleased(id: int)      // mUdpHubListener->releaseThread(id)
    | SessionWait                  // event_loop.exec() blocks until the session ends

  /**
   * Where an exception thrown inside run()'s try block is modelled; one out
   * of the session wait is not (see SessionFaultTrace).
   */
  datatype FaultStage =
    | CreateSession        // the JackTrip constructor
    | BindHandshakeSocket  // the handshake socket cannot be bound
    | StartSession         // jacktrip.startProcess()

  /** The ways run() ends in this model. */
  datatype RunExit =
    | HandshakeTimeout
    | ExceptionCaught(stage: FaultStage)
    | SessionCompleted

  /** Everything a worker forwards to its session. */
  datatype WorkerConfig = WorkerConfig(
    id: int,
    clientAddress: string,
    serverPort: Port,
    clientPort: Port,
    connectDefaultAudioPorts: bool,
    bufferQueueLength: int,
    underRunMode: int,
    clientName: string,
    ioStatTimeout: int,
    ioStatStream: int,
    bufferStrategy: int,
    simulatedLossRate: real,
    simulatedJitterRate: real,
    simulatedDelayRel: real,
    broadcastQueue: int,
    useRtUdpPriority: bool,
    appendThreadID: bool)

  /**
   * The settings JackTripWorker.h assigns through its inline setters (that
   * header is not part of this model); the constructor takes them at once.
   */
  datatype Tuning = Tuning(
    ioStatTimeout: int,
    ioStatStream: int,
    bufferStrategy: int,
    simulatedLossRate: real,
    simulatedJitterRate: real,
    simulatedDelayRel: real,
    broadcastQueue: int,
    useRtUdpPriority: bool,
    appendThreadID: bool)

  // ---------------------------------------------------------------------------
  // The event log

  /** The ids handed to releaseThread, in order. */
  function ReleasedIds(log: seq<Event>): (ids: seq<int>)
    ensures |ids| <= |log|
    ensures forall id :: id in ids <==> ThreadReleased(id) in log
  {
    if log == [] then []
    else
      var init, last := log[..|log| - 1], log[|log| - 1];
      assert log == init + [last];
      ReleasedIds(init) + (if last.ThreadReleased? then [last.id] else [])
  }

  /** The value of the spawning flag after `log`; a fresh worker is idle. */
  function SpawningFlag(log: seq<Event>): bool
  {
    if log == [] then false
    else if log[|log| - 1].SpawningSet? then log[|log| - 1].spawning
    else SpawningFlag(log[..|log| - 1])
  }

  /**
   * The ordering rules of a worker's life: releaseThread is only ever called
   * while the slot is marked as spawning, and the session wait only ever
   * runs while it is not.
   */
  ghost predicate WellOrdered(log: seq<Event>)
  {
    log == [] ||
    var init, last := log[..|log| - 1], log[|log| - 1];
    && WellOrdered(init)
    && (last.ThreadReleased? ==> SpawningFlag(init))
    && (last.SessionWait? ==> !SpawningFlag(init))
  }

  /** What one more event does to the flag, the released ids and the ordering rules. */
  lemma {:induction false} AppendEvent(log: seq<Event>, e: Event)
    requires WellOrdered(log)
    requires e.ThreadReleased? ==> SpawningFlag(log)
    requires e.SessionWait? ==> !SpawningFlag(log)
    ensures WellOrdered(log + [e])
    ensures SpawningFlag(log + [e]) == if e.SpawningSet? then e.spawning else SpawningFlag(log)
    ensures ReleasedIds(log + [e]) == ReleasedIds(log) + if e.ThreadReleased? then [e.id] else []
  {
    assert (log + [e])[..|log|] == log;
  }

  /** The events of one run() that ends in `exit`, for the worker with id `id`. */
  function RunTrace(id: int, exit: RunExit): seq<Event>
  {
    match exit
    case SessionCompleted =>
      [SpawningSet(true), SpawningSet(false), SessionWait, SpawningSet(true), ThreadReleased(id), SpawningSet(false)]
    case _ =>
      [SpawningSet(true), ThreadReleased(id), SpawningSet(false)]
  }

  /** The events of a run() that does not reach the session wait, as Run appends them. */
  lemma ShortRunTrace(log: seq<Event>, id: int, exit: RunExit)
    requires !exit.SessionCompleted?
    ensures log + [SpawningSet(true)] + [ThreadReleased(id)] + [SpawningSet(false)] == log + RunTrace(id, exit)
  {
  }

  /** The events of a run() whose session completes, as Run appends them. */
  lemma CompletedRunTrace(log: seq<Event>, id: int)
    ensures log + [SpawningSet(true)] + [SpawningSet(false)] + [SessionWait] + [SpawningSet(true)]
              + [ThreadReleased(id)] + [SpawningSet(false)]
            == log + RunTrace(id, SessionCompleted)
  {
  }

  /**
   * Whatever happened before, one run() releases its slot exactly once,
   * leaves the flag cleared, and keeps the ordering rules.
   */
  lemma {:induction false} RunReleasesOnce(log: seq<Event>, id: int, exit: RunExit)
    requires WellOrdered(log)
    ensures ReleasedIds(log + RunTrace(id, exit)) == ReleasedIds(log) + [id]
    ensures !SpawningFlag(log + RunTrace(id, exit))
    ensures WellOrdered(log + RunTrace(id, exit))
  {
    if exit.SessionCompleted? {
      CompletedRunReleasesOnce(log, id);
    } else {
      AppendEvent(log, SpawningSet(true));
      ReleaseThenIdle(log + [SpawningSet(true)], id);
      assert log + RunTrace(id, exit) == log + [SpawningSet(true)] + [ThreadReleased(id), SpawningSet(false)];
    }
  }

  /**
   * A run() whose session completes: the flag is cleared for the session
   * wait, set again for tear-down, and the slot is released once.
   */
  lemma {:induction false} CompletedRunReleasesOnce(log: seq<Event>, id: int)
    requires WellOrdered(log)
    ensures ReleasedIds(log + RunTrace(id, SessionCompleted)) == ReleasedIds(log) + [id]
    ensures !SpawningFlag(log + RunTrace(id, SessionCompleted))
    ensures WellOrdered(log + RunTrace(id, SessionCompleted))
  {
    var log4 := log + [SpawningSet(true), SpawningSet(false), SessionWait, SpawningSet(true)];
    SessionWaitThenTeardown(log);
    ReleaseThenIdle(log4, id);
    assert log + RunTrace(id, SessionCompleted) == log4 + [ThreadReleased(id), SpawningSet(false)];
  }

  /**
   * The first four steps of a run() whose session completes: spawning, not
   * spawning for the wait, spawning again for tear-down. Nothing is released.
   */
  lemma {:induction false} SessionWaitThenTeardown(log: seq<Event>)
    requires WellOrdered(log)
    ensures var log4 := log + [SpawningSet(true), SpawningSet(false), SessionWait, SpawningSet(true)];
      WellOrdered(log4) && SpawningFlag(log4) && ReleasedIds(log4) == ReleasedIds(log)
  {
    var log2 := log + [SpawningSet(true), SpawningSet(false)];
    AppendEvent(log, SpawningSet(true));
    AppendEvent(log + [SpawningSet(true)], SpawningSet(false));
    assert log + [SpawningSet(true)] + [SpawningSet(false)] == log2;
    AppendEvent(log2, SessionWait);
    AppendEvent(log2 + [SessionWait], SpawningSet(true));
    assert log2 + [SessionWait] + [SpawningSet(true)]
        == log + [SpawningSet(true), SpawningSet(false), SessionWait, SpawningSet(true)];
  }

  /** The common last two steps of every run(): release, then clear the flag. */
  lemma {:induction false} ReleaseThenIdle(log: seq<Event>, id: int)
    requires WellOrdered(log) && SpawningFlag(log)
    ensures ReleasedIds(log + [ThreadReleased(id), SpawningSet(false)]) == ReleasedIds(log) + [id]
    ensures !SpawningFlag(log + [ThreadReleased(id), SpawningSet(false)])
    ensures WellOrdered(log + [ThreadReleased(id), SpawningSet(false)])
  {
    AppendEvent(log, ThreadReleased(id));
    AppendEvent(log + [ThreadReleased(id)], SpawningSet(false));
    assert log + [ThreadReleased(id)] + [SpawningSet(false)] == log + [ThreadReleased(id), SpawningSet(false)];
  }

  /**
   * The events of a run() whose session wait throws: an exception out of
   * event_loop.exec() (line 240) reaches the handler at line 251, which
   * releases the slot after line 237 has already cleared the flag. Run does
   * not take this path; this trace states what the source does on it.
   */
  function SessionFaultTrace(id: int): seq<Event>
  {
    [SpawningSet(true), SpawningSet(false), SessionWait, ThreadReleased(id), SpawningSet(false)]
  }

  /**
   * On that path the slot is still released exactly once and left idle, but
   * even after a well-ordered history the release happens while the flag is
   * clear, so the ordering rules no longer hold.
   */
  lemma {:induction false} SessionFaultReleasesUnordered(log: seq<Event>, id: int)
    requires WellOrdered(log)
    ensures ReleasedIds(log + SessionFaultTrace(id)) == ReleasedIds(log) + [id]
    ensures !SpawningFlag(log + SessionFaultTrace(id))
    ensures !WellOrdered(log + SessionFaultTrace(id))
  {
    var log3 := log + [SpawningSet(true), SpawningSet(false), SessionWait];
    EnterSessionWait(log);
    ReleaseWhileIdle(log3, id);
    ClearAfterDisorder(log3 + [ThreadReleased(id)]);
    assert log + SessionFaultTrace(id) == log3 + [ThreadReleased(id)] + [SpawningSet(false)];
  }

  /** The first three steps of a run() that reaches the session wait. */
  lemma {:induction false} EnterSessionWait(log: seq<Event>)
    requires WellOrdered(log)
    ensures var log3 := log + [SpawningSet(true), SpawningSet(false), SessionWait];
      WellOrdered(log3) && !SpawningFlag(log3) && ReleasedIds(log3) == ReleasedIds(log)
  {
    AppendEvent(log, SpawningSet(true));
    AppendEvent(log + [SpawningSet(true)], SpawningSet(false));
    AppendEvent(log + [SpawningSet(true)] + [SpawningSet(false)], SessionWait);
    assert log + [SpawningSet(true)] + [SpawningSet(false)] + [SessionWait]
        == log + [SpawningSet(true), SpawningSet(false), SessionWait];
  }

  /** A release while the flag is clear breaks the ordering rules. */
  lemma {:induction false} ReleaseWhileIdle(log: seq<Event>, id: int)
    requires !SpawningFlag(log)
    ensures ReleasedIds(log + [ThreadReleased(id)]) == ReleasedIds(log) + [id]
    ensures !SpawningFlag(log + [ThreadReleased(id)])
    ensures !WellOrdered(log + [ThreadReleased(id)])
  {
    assert (log + [ThreadReleased(id)])[..|log|] == log;
  }

  /** Clearing the flag again does not repair broken ordering rules. */
  lemma {:induction false} ClearAfterDisorder(log: seq<Event>)
    requires !WellOrdered(log)
    ensures ReleasedIds(log + [SpawningSet(false)]) == ReleasedIds(log)
    ensures !SpawningFlag(log + [SpawningSet(false)])
    ensures !WellOrdered(log + [SpawningSet(false)])
  {
    assert (log + [SpawningSet(false)])[..|log|] == log;
  }


  // ---------------------------------------------------------------------------
  // What the session is told

  /**
   * The calls run() makes on the session before the handshake: the
   * constructor with placeholder channel counts, then the forwarded settings.
   */
  function SetupCalls(cfg: WorkerConfig): seq<SessionCall>
  {
    SetupHead(cfg) + IOStatCalls(cfg) + ClientNameCalls(cfg) + SessionIdCalls(cfg) + SetupTail(cfg)
  }

  /** Lines 136-137 and 170-173: always told. */
  function SetupHead(cfg: WorkerConfig): seq<SessionCall>
  {
    [Create(1, 1, cfg.bufferQueueLength),
     SetConnectDefaultAudioPorts(cfg.connectDefaultAudioPorts),
     SetUnderRunMode(cfg.underRunMode)]
  }

  /** Lines 174-177: IO statistics only with a positive timeout. */
  function IOStatCalls(cfg: WorkerConfig): seq<SessionCall>
  {
    if cfg.ioStatTimeout > 0 then [SetIOStatTimeout(cfg.ioStatTimeout), SetIOStatStream(cfg.ioStatStream)] else []
  }

  /** Line 179: a client name only when there is one. */
  function ClientNameCalls(cfg: WorkerConfig): seq<SessionCall>
  {
    if cfg.clientName != [] then [SetClientName(cfg.clientName)] else []
  }

  /** Line 202: the session id only when thread ids are appended. */
  function SessionIdCalls(cfg: WorkerConfig): seq<SessionCall>
  {
    if cfg.appendThreadID then [SetID(cfg.id + 1)] else []
  }

  /** Lines 203-210: always told. */
  function SetupTail(cfg: WorkerConfig): seq<SessionCall>
  {
    [SetPeerAddress(cfg.clientAddress),
     SetBindPorts(cfg.serverPort),
     SetBufferStrategy(cfg.bufferStrategy),
     SetNetIssuesSimulation(cfg.simulatedLossRate, cfg.simulatedJitterRate, cfg.simulatedDelayRel),
     SetBroadcast(cfg.broadcastQueue),
     SetUseRtUdpPriority(cfg.useRtUdpPriority)]
  }

  /** The settings every session is told, starting with its construction. */
  lemma SetupAlwaysForwards(cfg: WorkerConfig)
    ensures var calls := SetupCalls(cfg);
      && |calls| > 0 && calls[0] == Create(1, 1, cfg.bufferQueueLength)
      && SetConnectDefaultAudioPorts(cfg.connectDefaultAudioPorts) in calls
      && SetUnderRunMode(cfg.underRunMode) in calls
      && SetPeerAddress(cfg.clientAddress) in calls
      && SetBindPorts(cfg.serverPort) in calls
      && SetBufferStrategy(cfg.bufferStrategy) in calls
      && SetNetIssuesSimulation(cfg.simulatedLossRate, cfg.simulatedJitterRate, cfg.simulatedDelayRel) in calls
      && SetBroadcast(cfg.broadcastQueue) in calls
      && SetUseRtUdpPriority(cfg.useRtUdpPriority) in calls
  {
    var calls := SetupCalls(cfg);
    var tail := SetupTail(cfg);
    assert calls == SetupHead(cfg) + (IOStatCalls(cfg) + ClientNameCalls(cfg) + SessionIdCalls(cfg)) + tail;
    assert forall c :: c in tail ==> c in calls;
  }

  /** The IO-statistics timeout and stream are told exactly when the timeout is positive. */
  lemma SetupForwardsIOStat(cfg: WorkerConfig)
    ensures var calls := SetupCalls(cfg);
      && (cfg.ioStatTimeout > 0 ==>
            SetIOStatTimeout(cfg.ioStatTimeout) in calls && SetIOStatStream(cfg.ioStatStream) in calls)
      && (forall c :: c in calls && (c.SetIOStatTimeout? || c.SetIOStatStream?) ==> cfg.ioStatTimeout > 0)
  {
    var io := IOStatCalls(cfg);
    assert SetupCalls(cfg) == SetupHead(cfg) + io + (ClientNameCalls(cfg) + SessionIdCalls(cfg) + SetupTail(cfg));
  }

  /** The client name is told exactly when it is not empty. */
  lemma SetupForwardsClientName(cfg: WorkerConfig)
    ensures var calls := SetupCalls(cfg);
      && (cfg.clientName != [] ==> SetClientName(cfg.clientName) in calls)
      && (forall c :: c in calls && c.SetClientName? ==> c == SetClientName(cfg.clientName) && cfg.clientName != [])
  {
    var name := ClientNameCalls(cfg);
    assert SetupCalls(cfg) == (SetupHead(cfg) + IOStatCalls(cfg)) + name + (SessionIdCalls(cfg) + SetupTail(cfg));
  }

  /** The session id, mID + 1, is told exactly when thread ids are appended. */
  lemma SetupForwardsSessionId(cfg: WorkerConfig)
    ensures var calls := SetupCalls(cfg);
      && (cfg.appendThreadID ==> SetID(cfg.id + 1) in calls)
      && (forall c :: c in calls && c.SetID? ==> c == SetID(cfg.id + 1) && cfg.appendThreadID)
  {
    var tag := SessionIdCalls(cfg);
    assert SetupCalls(cfg) == (SetupHead(cfg) + IOStatCalls(cfg) + ClientNameCalls(cfg)) + tag + SetupTail(cfg);
  }

  /** Before the handshake the session gets no channel counts and is not started. */
  lemma SetupLeavesChannelsAlone(cfg: WorkerConfig)
    ensures forall c :: c in SetupCalls(cfg) ==>
      !c.SetNumInputChannels? && !c.SetNumOutputChannels? && !c.StartProcess?
  {
  }

  /** How run() ends, given the handshake timing and where (if anywhere) it throws. */
  function ExitOf(udpTimeout: int, firstPending: Option<nat>, fault: Option<FaultStage>): RunExit
  {
    if fault == Some(CreateSession) then ExceptionCaught(CreateSession)
    else if fault == Some(BindHandshakeSocket) then ExceptionCaught(BindHandshakeSocket)
    else if TimedOut(udpTimeout, firstPending) then HandshakeTimeout
    else if fault == Some(StartSession) then ExceptionCaught(StartSession)
    else SessionCompleted
  }

  /** Everything the session of one run() is told. */
  function SessionCallsOf(
    cfg: WorkerConfig, udpTimeout: int, firstPending: Option<nat>, header: Header, fault: Option<FaultStage>)
    : seq<SessionCall>
  {
    match ExitOf(udpTimeout, firstPending, fault)
    case ExceptionCaught(CreateSession) => []
    case ExceptionCaught(BindHandshakeSocket) => SetupCalls(cfg)
    case HandshakeTimeout => SetupCalls(cfg)
    case _ => SetupCalls(cfg) + ChannelCalls(header.incoming, header.outgoing) + [StartProcess]
  }

  /**
   * The session gets channel counts and is started exactly when the
   * handshake received a header, and then with the resolved counts.
   */
  lemma SessionStartsOnlyAfterHandshake(
    cfg: WorkerConfig, udpTimeout: int, firstPending: Option<nat>, header: Header, fault: Option<FaultStage>)
    ensures var calls := SessionCallsOf(cfg, udpTimeout, firstPending, header, fault);
      var exit := ExitOf(udpTimeout, firstPending, fault);
      && (StartProcess in calls <==> exit == SessionCompleted || exit == ExceptionCaught(StartSession))
      && ((exists c :: c in calls && (c.SetNumInputChannels? || c.SetNumOutputChannels?)) <==> StartProcess in calls)
      && (StartProcess in calls ==>
            var counts := ResolveChannels(header.incoming, header.outgoing);
            SetNumInputChannels(counts.inputs) in calls && SetNumOutputChannels(counts.outputs) in calls)
  {
    var calls := SessionCallsOf(cfg, udpTimeout, firstPending, header, fault);
    SetupLeavesChannelsAlone(cfg);
    if StartProcess in calls {
      assert calls == SetupCalls(cfg) + ChannelCalls(header.incoming, header.outgoing) + [StartProcess];
      assert calls[|SetupCalls(cfg)|] in calls;
    }
  }

  // ---------------------------------------------------------------------------
  // The worker

  class JackTripWorker {
    // Per-connection settings, assigned by SetJackTrip.
    var id: int
    var clientAddress: string
    var serverPort: Port
    var clientPort: Port
    var connectDefaultAudioPorts: bool

    // Settings fixed when the hub creates the slot.
    var bufferQueueLength: int
    var underRunMode: int
    var clientName: string
    var ioStatTimeout: int
    var ioStatStream: int
    var bufferStrategy: int
    var simulatedLossRate: real
    var simulatedJitterRate: real
    var simulatedDelayRel: real
    var broadcastQueue: int
    var useRtUdpPriority: bool
    var appendThreadID: bool

    /** mSpawning: true while the slot is being set up or torn down. */
    var spawning: bool

    /** Every write to `spawning`, releaseThread call and session wait so far. */
    ghost var log: seq<Event>
    /** What the session of the latest run() was told. */
    ghost var sessionCalls: seq<SessionCall>

    ghost predicate Valid()
      reads this`spawning, this`log
    {
      spawning == SpawningFlag(log) && WellOrdered(log)
    }

    ghost function Config(): WorkerConfig
      reads this`id, this`clientAddress, this`serverPort, this`clientPort,
            this`connectDefaultAudioPorts, this`bufferQueueLength, this`underRunMode,
            this`clientName, this`ioStatTimeout, this`ioStatStream, this`bufferStrategy,
            this`simulatedLossRate, this`simulatedJitterRate, this`simulatedDelayRel,
            this`broadcastQueue, this`useRtUdpPriority, this`appendThreadID
    {
      WorkerConfig(id, clientAddress, serverPort, clientPort, connectDefaultAudioPorts,
             bufferQueueLength, underRunMode, clientName, ioStatTimeout, ioStatStream,
             bufferStrategy, simulatedLossRate, simulatedJitterRate, simulatedDelayRel,
             broadcastQueue, useRtUdpPriority, appendThreadID)
    }

    /** A fresh, idle slot. */
    constructor (bufferQueueLength: int, underRunMode: int, clientName: string, tuning: Tuning)
      ensures Valid() && !spawning && log == [] && sessionCalls == []
      ensures this.bufferQueueLength == bufferQueueLength && this.underRunMode == underRunMode
      ensures this.clientName == clientName
      ensures ioStatTimeout == tuning.ioStatTimeout && ioStatStream == tuning.ioStatStream
      ensures bufferStrategy == tuning.bufferStrategy
      ensures simulatedLossRate == tuning.simulatedLossRate && simulatedJitterRate == tuning.simulatedJitterRate
      ensures simulatedDelayRel == tuning.simulatedDelayRel
      ensures broadcastQueue == tuning.broadcastQueue && useRtUdpPriority == tuning.useRtUdpPriority
      ensures appendThreadID == tuning.appendThreadID
    {
      this.bufferQueueLength := bufferQueueLength;
      this.underRunMode := underRunMode;
      this.clientName := clientName;
      ioStatTimeout := tuning.ioStatTimeout;
      ioStatStream := tuning.ioStatStream;
      bufferStrategy := tuning.bufferStrategy;
      simulatedLossRate := tuning.simulatedLossRate;
      simulatedJitterRate := tuning.simulatedJitterRate;
      simulatedDelayRel := tuning.simulatedDelayRel;
      broadcastQueue := tuning.broadcastQueue;
      useRtUdpPriority := tuning.useRtUdpPriority;
      appendThreadID := tuning.appendThreadID;
      id, clientAddress, serverPort, clientPort, connectDefaultAudioPorts := 0, "", 0, 0, false;
      spawning := false;
      log, sessionCalls := [], [];
    }

    /** setJackTrip: claim the slot for one client. */
    method SetJackTrip(id: int, clientAddress: string, serverPort: Port, clientPort: Port,
                       connectDefaultAudioPorts: bool)
      requires Valid()
      modifies this`spawning, this`log, this`id, this`clientAddress, this`serverPort,
               this`clientPort, this`connectDefaultAudioPorts
      ensures Valid() && spawning
      ensures log == old(log) + [SpawningSet(true)]
      ensures this.id == id && this.clientAddress == clientAddress
      ensures this.serverPort == serverPort && this.clientPort == clientPort
      ensures this.connectDefaultAudioPorts == connectDefaultAudioPorts
    {
      AppendEvent(log, SpawningSet(true));
      spawning := true;
      log := log + [SpawningSet(true)];
      this.id := id;
      this.clientAddress := clientAddress;
      this.serverPort := serverPort;
      this.clientPort := clientPort;
      this.connectDefaultAudioPorts := connectDefaultAudioPorts;
    }

    /** isSpawning. */
    method IsSpawning() returns (b: bool)
      requires Valid()
      ensures b == spawning && b == SpawningFlag(log)
    {
      b := spawning;
    }

    /** The calls run() makes on a new session before the handshake (lines 136-210). */
    method SetUpSession() returns (calls: seq<SessionCall>)
      ensures calls == SetupCalls(Config())
    {
      ghost var cfg := Config();
      calls := [Create(1, 1, bufferQueueLength)];
      calls := calls + [SetConnectDefaultAudioPorts(connectDefaultAudioPorts)];
      calls := calls + [SetUnderRunMode(underRunMode)];
      assert calls == SetupHead(cfg);
      if ioStatTimeout > 0 {
        calls := calls + [SetIOStatTimeout(ioStatTimeout), SetIOStatStream(ioStatStream)];
      }
      assert calls == SetupHead(cfg) + IOStatCalls(cfg);
      if clientName != [] {
        calls := calls + [SetClientName(clientName)];
      }
      assert calls == SetupHead(cfg) + IOStatCalls(cfg) + ClientNameCalls(cfg);
      if appendThreadID {
        calls := calls + [SetID(id + 1)];
      }
      assert calls == SetupHead(cfg) + IOStatCalls(cfg) + ClientNameCalls(cfg) + SessionIdCalls(cfg);
      calls := calls + [SetPeerAddress(clientAddress), SetBindPorts(serverPort),
                        SetBufferStrategy(bufferStrategy),
                        SetNetIssuesSimulation(simulatedLossRate, simulatedJitterRate, simulatedDelayRel),
                        SetBroadcast(broadcastQueue), SetUseRtUdpPriority(useRtUdpPriority)];
    }

    /**
     * The part of run() inside the try block up to the session wait (lines
     * 103-230): create and set up the session, do the handshake, and start the
     * session. `exit` tells how run() goes on: SessionCompleted means the
     * session was started and run() waits for it.
     */
    method PrepareSession(udpTimeout: int, firstPending: Option<nat>, header: Header, fault: Option<FaultStage>)
      returns (exit: RunExit, calls: seq<SessionCall>)
      ensures exit == ExitOf(udpTimeout, firstPending, fault)
      ensures calls == SessionCallsOf(Config(), udpTimeout, firstPending, header, fault)
    {
      if fault == Some(CreateSession) {
        return ExceptionCaught(CreateSession), [];
      }
      calls := SetUpSession();
      var result;
      result, calls := SetJackTripFromClientHeader(
        calls, fault != Some(BindHandshakeSocket), udpTimeout, firstPending, header);
      if result == BindError {
        return ExceptionCaught(BindHandshakeSocket), calls;
      }
      if result.value == -1 {
        return HandshakeTimeout, calls;
      }
      calls := calls + [StartProcess];
      if fault == Some(StartSession) {
        return ExceptionCaught(StartSession), calls;
      }
      exit := SessionCompleted;
    }

    /**
     * run: set up a session, do the handshake, run the session until it
     * stops, and release the slot. `udpTimeout` is the hub-wide handshake
     * timeout, `firstPending` and `header` describe the peer's datagram, and
     * `fault` says where, if anywhere, an exception is thrown.
     */
    method Run(udpTimeout: int, firstPending: Option<nat>, header: Header, fault: Option<FaultStage>)
      requires Valid()
      modifies this`spawning, this`log, this`sessionCalls
      ensures Valid() && !spawning
      ensures log == old(log) + RunTrace(id, ExitOf(udpTimeout, firstPending, fault))
      ensures ReleasedIds(log) == old(ReleasedIds(log)) + [id]
      ensures sessionCalls == SessionCallsOf(old(Config()), udpTimeout, firstPending, header, fault)
    {
      ghost var log0 := log;
      spawning := true;
      log := log + [SpawningSet(true)];
      var exit, calls := PrepareSession(udpTimeout, firstPending, header, fault);
      assert calls == SessionCallsOf(old(Config()), udpTimeout, firstPending, header, fault);
      sessionCalls := calls;
      RunReleasesOnce(log0, id, exit);
      if exit != SessionCompleted {
        // handshake timeout (lines 215-221) or exception caught (lines 251-260)
        log := log + [ThreadReleased(id)];
        spawning := false;
        log := log + [SpawningSet(false)];
        ShortRunTrace(log0, id, exit);
        return;
      }
      spawning := false;
      log := log + [SpawningSet(false)];
      log := log + [SessionWait];  // event_loop.exec()
      spawning := true;
      log := log + [SpawningSet(true)];
      log := log + [ThreadReleased(id)];
      spawning := false;
      log := log + [SpawningSet(false)];
      CompletedRunTrace(log0, id);
    }
  }
}
