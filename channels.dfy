/**
 * Channel-count resolution of the hub handshake (src/JackTripWorker.cpp:337-351).
 *
 * The last field of the peer's header used to carry the connection mode, of
 * which only NORMAL (0) was ever sent. Newer peers put their number of
 * outgoing channels there, with the 8-bit maximum 255 standing for "none".
 */
module Channels {

  /** The range of an 8-bit header field. */
  type Byte = x: int | 0 <= x < 256

  /** JackTrip::NORMAL, the legacy connection mode. */
  const Normal: Byte := 0

  /** std::numeric_limits<uint8_t>::max(), read as "no outputs". */
  const MaxByte: Byte := 255

  /** The channel counts handed to the session. */
  datatype ChannelCounts = ChannelCounts(inputs: int, outputs: int)

  /**
   * The session's input and output channel counts for a peer that announced
   * `incoming` and `outgoing` in its header.
   */
  function ResolveChannels(incoming: Byte, outgoing: Byte): (c: ChannelCounts)
    ensures c.inputs == incoming
    ensures 0 <= c.outputs <= MaxByte
    ensures c.outputs == 0 <==> outgoing == MaxByte || (outgoing == Normal && incoming == 0)
    ensures outgoing != Normal ==> c.outputs < MaxByte
  {
    if outgoing == Normal then
      ChannelCounts(incoming, incoming)
    else if outgoing == MaxByte then
      ChannelCounts(incoming, 0)
    else
      ChannelCounts(incoming, outgoing)
  }

  /** A legacy peer (field NORMAL) gets as many outputs as it has inputs. */
  lemma ResolveLegacyNormal(incoming: Byte)
    ensures ResolveChannels(incoming, Normal) == ChannelCounts(incoming, incoming)
  {
  }

  /** The field value 255 means the peer wants no outputs. */
  lemma ResolveNoOutputs(incoming: Byte)
    ensures ResolveChannels(incoming, MaxByte) == ChannelCounts(incoming, 0)
  {
  }

  /** Every other field value is taken literally as the output count. */
  lemma ResolveLiteral(incoming: Byte, outgoing: Byte)
    requires outgoing != Normal && outgoing != MaxByte
    ensures ResolveChannels(incoming, outgoing) == ChannelCounts(incoming, outgoing)
  {
  }

  /**
   * The field value that requests `outputs` output channels under the
   * resolution rule: 0 outputs is sent as 255, any other count as itself.
   */
  function OutgoingFieldFor(outputs: Byte): (field: Byte)
    requires outputs < MaxByte
    ensures field != Normal
  {
    if outputs == 0 then MaxByte else outputs
  }

  /**
   * Every output count from 0 to 254 can be requested, whatever the input
   * count, and the request is resolved back to exactly that count.
   */
  lemma RequestedOutputsRoundTrip(incoming: Byte, outputs: Byte)
    requires outputs < MaxByte
    ensures ResolveChannels(incoming, OutgoingFieldFor(outputs)) == ChannelCounts(incoming, outputs)
  {
  }

  /**
   * 255 outputs cannot be requested literally: it is reached only by a legacy
   * peer with 255 inputs.
   */
  lemma MaxOutputsOnlyFromLegacy(incoming: Byte, outgoing: Byte)
    ensures ResolveChannels(incoming, outgoing).outputs == MaxByte <==> outgoing == Normal && incoming == MaxByte
  {
  }
}
