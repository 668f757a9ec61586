/** `createSdpText`: the single-audio-stream session description (RFC 4566,
    section 5: the `v=`, `o=`, `s=`, `c=`, `t=`, `m=` and `a=` lines) that tells
    the transcoder where RTP arrives and how it is encoded, and a reader for
    that text against which the builder is proved. */
module Sdp {
  import opened Wrappers
  import opened Text
  import opened Media
  import opened Codec

  /** The lines of the template literal, in order; they are joined with `\n`. */
  function SdpLines(localIp: string, rtpPort: int, info: CodecInfo): seq<string> {
    [ "v=0",
      "o=- 0 0 IN IP4 0.0.0.0",
      "s=MediaSoup Recording",
      "c=IN IP4 " + localIp,
      "t=0 0",
      "m=audio " + IntToString(rtpPort) + " RTP/AVP " + IntToString(info.payloadType),
      "a=rtpmap:" + IntToString(info.payloadType) + " " + info.codecName + "/"
        + IntToString(info.clockRate) + "/" + IntToString(info.channels),
      "a=recvonly" ]
  }

  /** `createSdpText(producer, plainTransport, ffmpegPort)`: describes the
      producer's first audio codec arriving on `ffmpegPort`; throws what
      `getCodecInfoFromRtpParameters` throws. */
  function CreateSdpText(producer: Producer, plainTransport: PlainTransport, ffmpegPort: int): (r: Result<string, CodecError>)
    ensures r.Success? <==> GetCodecInfoFromRtpParameters(Audio, producer.rtpParameters).Success?
    ensures r.Failure? ==> r == Failure(GetCodecInfoFromRtpParameters(Audio, producer.rtpParameters).error)
  {
    match GetCodecInfoFromRtpParameters(Audio, producer.rtpParameters)
    case Failure(e) => Failure(e)
    case Success(info) => Success(Join(SdpLines(plainTransport.localIp, ffmpegPort, info), '\n'))
  }

  /** What a receiver reads out of a session description. */
  datatype SdpSummary = SdpSummary(
    connectionIp: string,
    mediaPort: int,
    mediaPayloadType: int,
    rtpmapPayloadType: int,
    codecName: string,
    clockRate: int,
    channels: int)

  const ConnectionPrefix: string := "c=IN IP4 "
  const RtpmapPrefix: string := "a=rtpmap:"

  /** `m=audio <port> RTP/AVP <payload type>` */
  function ParseMediaLine(line: string): Option<(int, int)> {
    var w := Split(line, ' ');
    if |w| == 4 && w[0] == "m=audio" && w[2] == "RTP/AVP" then
      match (ParseInt(w[1]), ParseInt(w[3]))
      case (Some(port), Some(pt)) => Some((port, pt))
      case _ => None
    else None
  }

  /** `a=rtpmap:<payload type> <name>/<clock rate>/<channels>` */
  function ParseRtpmapLine(line: string): Option<(int, string, int, int)> {
    var w := Split(line, ' ');
    if |w| == 2 && RtpmapPrefix <= w[0] then
      var f := Split(w[1], '/');
      if |f| == 3 then
        match (ParseInt(w[0][|RtpmapPrefix|..]), ParseInt(f[1]), ParseInt(f[2]))
        case (Some(pt), Some(clock), Some(ch)) => Some((pt, f[0], clock, ch))
        case _ => None
      else None
    else None
  }

  /** Reads the connection address, the media line and the rtpmap attribute
      of a description laid out as `createSdpText` lays it out. */
  function ParseSdp(text: string): Option<SdpSummary> {
    var lines := Split(text, '\n');
    if |lines| == 8 && ConnectionPrefix <= lines[3] then
      match (ParseMediaLine(lines[5]), ParseRtpmapLine(lines[6]))
      case (Some((port, pt)), Some((mapPt, name, clock, ch))) =>
        Some(SdpSummary(lines[3][|ConnectionPrefix|..], port, pt, mapPt, name, clock, ch))
      case _ => None
    else None
  }

  /** The name in a descriptor never holds the separator of the rtpmap fields. */
  lemma CodecNameHasNoSlash(kind: MediaKind, params: RtpParameters)
    requires GetCodecInfoFromRtpParameters(kind, params).Success?
    ensures '/' !in GetCodecInfoFromRtpParameters(kind, params).value.codecName
  {
    var i := FindFirstOfKind(kind, params.codecs).value;
    SelectedCodecInfo(kind, params, i);
  }

  lemma MediaLineRoundTrip(port: int, pt: int)
    ensures ParseMediaLine("m=audio " + IntToString(port) + " RTP/AVP " + IntToString(pt)) == Some((port, pt))
  {
    var p, t := IntToString(port), IntToString(pt);
    var w := ["m=audio", p, "RTP/AVP", t];
    IntToStringOmits(port, ' ');
    IntToStringOmits(pt, ' ');
    assert Join(w[2..], ' ') == "RTP/AVP" + [' '] + t;
    assert Join(w[1..], ' ') == p + [' '] + ("RTP/AVP" + [' '] + t);
    assert Join(w, ' ') == "m=audio " + p + " RTP/AVP " + t;
    SplitJoin(w, ' ');
    IntToStringRoundTrip(port);
    IntToStringRoundTrip(pt);
  }

  lemma RtpmapLineRoundTrip(pt: int, name: string, clock: int, ch: int)
    requires ' ' !in name && '/' !in name
    ensures ParseRtpmapLine(RtpmapPrefix + IntToString(pt) + " " + name + "/" + IntToString(clock) + "/" + IntToString(ch))
            == Some((pt, name, clock, ch))
  {
    var t, c, h := IntToString(pt), IntToString(clock), IntToString(ch);
    IntToStringOmits(pt, ' ');
    IntToStringOmits(clock, ' ');
    IntToStringOmits(ch, ' ');
    IntToStringOmits(clock, '/');
    IntToStringOmits(ch, '/');
    var f := [name, c, h];
    var rest := Join(f, '/');
    assert Join(f[1..], '/') == c + ['/'] + h;
    assert rest == name + "/" + c + "/" + h;
    var w := [RtpmapPrefix + t, rest];
    assert ' ' !in RtpmapPrefix + t;
    assert Join(w, ' ') == RtpmapPrefix + t + " " + name + "/" + c + "/" + h;
    SplitJoin(w, ' ');
    SplitJoin(f, '/');
    assert w[0][|RtpmapPrefix|..] == t;
    IntToStringRoundTrip(pt);
    IntToStringRoundTrip(clock);
    IntToStringRoundTrip(ch);
  }

  lemma MediaLineHasNoNewline(port: int, pt: int)
    ensures '\n' !in "m=audio " + IntToString(port) + " RTP/AVP " + IntToString(pt)
  {
    IntToStringOmits(port, '\n');
    IntToStringOmits(pt, '\n');
  }

  lemma RtpmapLineHasNoNewline(info: CodecInfo)
    requires '\n' !in info.codecName
    ensures '\n' !in "a=rtpmap:" + IntToString(info.payloadType) + " " + info.codecName + "/"
                      + IntToString(info.clockRate) + "/" + IntToString(info.channels)
  {
    IntToStringOmits(info.payloadType, '\n');
    IntToStringOmits(info.clockRate, '\n');
    IntToStringOmits(info.channels, '\n');
  }

  lemma LinesHaveNoNewline(localIp: string, rtpPort: int, info: CodecInfo)
    requires '\n' !in localIp && '\n' !in info.codecName
    ensures forall k :: 0 <= k < 8 ==> '\n' !in SdpLines(localIp, rtpPort, info)[k]
  {
    MediaLineHasNoNewline(rtpPort, info.payloadType);
    RtpmapLineHasNoNewline(info);
    assert '\n' !in "c=IN IP4 " + localIp;
  }

  /** The reader undoes the layout for any address, port and descriptor whose
      text leaves the separators alone. */
  lemma SdpLinesRoundTrip(localIp: string, rtpPort: int, info: CodecInfo)
    requires '\n' !in localIp
    requires ' ' !in info.codecName && '\n' !in info.codecName && '/' !in info.codecName
    ensures ParseSdp(Join(SdpLines(localIp, rtpPort, info), '\n'))
            == Some(SdpSummary(localIp, rtpPort, info.payloadType, info.payloadType,
                               info.codecName, info.clockRate, info.channels))
  {
    var lines := SdpLines(localIp, rtpPort, info);
    LinesHaveNoNewline(localIp, rtpPort, info);
    SplitJoin(lines, '\n');
    assert lines[3][|ConnectionPrefix|..] == localIp;
    MediaLineRoundTrip(rtpPort, info.payloadType);
    RtpmapLineRoundTrip(info.payloadType, info.codecName, info.clockRate, info.channels);
  }

  /** Reading back the description `createSdpText` builds gives the transport's
      address, the port it was given, and on both the `m=audio` line and the
      rtpmap attribute the same payload type, the one of the producer's first
      audio codec, with that codec's name, clock rate and channel count. */
  lemma SdpRoundTrip(producer: Producer, plainTransport: PlainTransport, ffmpegPort: int)
    requires GetCodecInfoFromRtpParameters(Audio, producer.rtpParameters).Success?
    requires '\n' !in plainTransport.localIp
    requires var name := GetCodecInfoFromRtpParameters(Audio, producer.rtpParameters).value.codecName;
             ' ' !in name && '\n' !in name
    ensures var info := GetCodecInfoFromRtpParameters(Audio, producer.rtpParameters).value;
            ParseSdp(CreateSdpText(producer, plainTransport, ffmpegPort).value)
            == Some(SdpSummary(plainTransport.localIp, ffmpegPort, info.payloadType, info.payloadType,
                               info.codecName, info.clockRate, info.channels))
  {
    CodecNameHasNoSlash(Audio, producer.rtpParameters);
    SdpLinesRoundTrip(plainTransport.localIp, ffmpegPort,
                      GetCodecInfoFromRtpParameters(Audio, producer.rtpParameters).value);
  }
}
