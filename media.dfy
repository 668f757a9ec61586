/** The media-engine objects the recording code reads, reduced to the fields
    it uses: a kind, negotiated RTP parameters and identifiers. */
module Media {
  import opened Wrappers

  datatype MediaKind = Audio | Video

  /** One entry of `rtpParameters.codecs`; `channels` is optional, as in the engine's type. */
  datatype RtpCodec = RtpCodec(mimeType: string, payloadType: int, clockRate: int, channels: Option<int>)

  /** Negotiated RTP parameters; only the codec list is modelled. */
  datatype RtpParameters = RtpParameters(codecs: seq<RtpCodec>)

  datatype Producer = Producer(id: string, kind: MediaKind, rtpParameters: RtpParameters)

  /** A consumer of `producerId`, with the parameters the engine negotiated for it. */
  datatype Consumer = Consumer(id: string, producerId: string, rtpParameters: RtpParameters)

  /** A non-ICE transport; `localIp` is `tuple.localIp`, `localPort` the port it was created on. */
  datatype PlainTransport = PlainTransport(id: string, localIp: string, localPort: int)
}
