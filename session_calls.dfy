/**
 * The hub worker drives a JackTrip session object it does not implement.
 * The model records what that object is told, in order, as a sequence of
 * calls; the JackTrip class itself is not part of this model.
 */
module SessionCalls {

  /** A UDP port number (uint16_t). */
  type Port = p: int | 0 <= p < 0x1_0000

  datatype SessionCall =
    | Create(numInputs: int, numOutputs: int, bufferQueueLength: int)
      // JackTrip(SERVERPINGSERVER, UDP, numInputs, numOutputs, bufferQueueLength)
    | SetConnectDefaultAudioPorts(connect: bool)
    | SetUnderRunMode(mode: int)
    | SetIOStatTimeout(timeout: int)
    | SetIOStatStream(stream: int)
    | SetClientName(name: string)
    | SetID(sessionId: int)
    | SetPeerAddress(address: string)
    | SetBindPorts(port: Port)
    | SetBufferStrategy(strategy: int)
    | SetNetIssuesSimulation(lossRate: real, jitterRate: real, delayRel: real)
    | SetBroadcast(queue: int)
    | SetUseRtUdpPriority(enabled: bool)
    | SetNumInputChannels(inputs: int)
    | SetNumOutputChannels(outputs: int)
    | StartProcess
}
