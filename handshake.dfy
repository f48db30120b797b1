/**
 * The handshake rendezvous of a hub worker (src/JackTripWorker.cpp:279-354):
 * wait a bounded time for the peer's first datagram, then set the session's
 * channel counts from its header.
 *
 * The socket is abstracted away. `firstPending` says after how many sleeps
 * the peer's datagram is first pending on the socket (None: never); a pending
 * datagram stays pending, since nothing reads it before the wait ends.
 */
module Handshake {
  import opened Wrappers
  import opened Channels
  import opened SessionCalls

  /** The poll granularity of the wait, in milliseconds. */
  const SleepTime := 100

  /** The five fields the JackTrip codec decodes from the peer's header. */
  datatype Header = Header(
    bufferSize: int,
    samplingRate: int,
    bitResolution: int,
    incoming: Byte,
    outgoing: Byte)

  /**
   * What setJackTripFromClientHeader hands back: the bind failure it throws,
   * or the integer it returns.
   */
  datatype HeaderResult = BindError | Returned(value: int)

  /** Whether a datagram is pending when the socket is asked after `sleeps` sleeps. */
  predicate PendingAt(firstPending: Option<nat>, sleeps: nat)
  {
    firstPending.Some? && firstPending.value <= sleeps
  }

  /** The number of sleeps after which the elapsed time first exceeds `udpTimeout`. */
  function TimeoutSteps(udpTimeout: int): (n: nat)
    ensures SleepTime * n > udpTimeout
    ensures n == 0 || SleepTime * (n - 1) <= udpTimeout
  {
    if udpTimeout < 0 then 0 else udpTimeout / SleepTime + 1
  }

  /** Any number of sleeps whose elapsed time exceeds `udpTimeout` is at least TimeoutSteps. */
  lemma TimeoutStepsIsLeast(udpTimeout: int, n: nat)
    requires SleepTime * n > udpTimeout
    ensures n >= TimeoutSteps(udpTimeout)
  {
    if udpTimeout >= 0 {
      assert SleepTime * (udpTimeout / SleepTime) <= udpTimeout;
    }
  }

  /** The wait ends without a datagram: none arrives within TimeoutSteps sleeps. */
  predicate TimedOut(udpTimeout: int, firstPending: Option<nat>)
  {
    !PendingAt(firstPending, TimeoutSteps(udpTimeout))
  }

  /**
   * The poll loop: sleep SleepTime milliseconds at a time while no datagram is
   * pending and the elapsed time has not exceeded `udpTimeout`, then ask the
   * socket once more.
   */
  method AwaitDatagram(udpTimeout: int, firstPending: Option<nat>)
    returns (elapsed: int, sleeps: nat, pending: bool)
    ensures elapsed == SleepTime * sleeps
    ensures pending == PendingAt(firstPending, sleeps)
    ensures pending || elapsed > udpTimeout
    ensures forall k: nat :: k < sleeps ==> !PendingAt(firstPending, k) && SleepTime * k <= udpTimeout
    ensures udpTimeout >= 0 ==> elapsed <= udpTimeout + SleepTime
    ensures firstPending == None && udpTimeout >= 0 ==> sleeps == udpTimeout / SleepTime + 1
    ensures !pending <==> TimedOut(udpTimeout, firstPending)
  {
    elapsed, sleeps := 0, 0;
    while !PendingAt(firstPending, sleeps) && elapsed <= udpTimeout
      invariant elapsed == SleepTime * sleeps
      invariant forall k: nat :: k < sleeps ==> !PendingAt(firstPending, k) && SleepTime * k <= udpTimeout
      decreases udpTimeout - elapsed
    {
      elapsed := elapsed + SleepTime;
      sleeps := sleeps + 1;
    }
    pending := PendingAt(firstPending, sleeps);
    if sleeps > 0 {
      assert SleepTime * (sleeps - 1) <= udpTimeout by {
        assert !PendingAt(firstPending, sleeps - 1);
      }
    }
    if !pending {
      TimeoutStepsIsLeast(udpTimeout, sleeps);
    }
  }

  /** The two calls that give the session its resolved channel counts. */
  function ChannelCalls(incoming: Byte, outgoing: Byte): seq<SessionCall>
  {
    var c := ResolveChannels(incoming, outgoing);
    [SetNumInputChannels(c.inputs), SetNumOutputChannels(c.outputs)]
  }

  /**
   * setJackTripFromClientHeader: bind the handshake socket (`bindOk` says
   * whether that succeeds), wait for the peer's datagram, and on arrival tell
   * the session its channel counts. `session` is what the session has been
   * told so far.
   */
  method SetJackTripFromClientHeader(
    session: seq<SessionCall>, bindOk: bool, udpTimeout: int,
    firstPending: Option<nat>, header: Header)
    returns (r: HeaderResult, session': seq<SessionCall>)
    ensures !bindOk ==> r == BindError && session' == session
    ensures bindOk && TimedOut(udpTimeout, firstPending) ==> r == Returned(-1) && session' == session
    ensures bindOk && !TimedOut(udpTimeout, firstPending) ==>
      r == Returned(header.outgoing) && session' == session + ChannelCalls(header.incoming, header.outgoing)
    ensures r == Returned(-1) <==> bindOk && TimedOut(udpTimeout, firstPending)
  {
    if !bindOk {
      return BindError, session;
    }
    var elapsed, sleeps, pending := AwaitDatagram(udpTimeout, firstPending);
    if !pending {
      return Returned(-1), session;
    }
    var c := ResolveChannels(header.incoming, header.outgoing);
    session' := session + [SetNumInputChannels(c.inputs), SetNumOutputChannels(c.outputs)];
    r := Returned(header.outgoing);
  }
}
