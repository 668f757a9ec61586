/** The per-producer recording registry `activeRecordings` and the setup and
    cleanup of one recording (`setupRecordingForProducer` and its `cleanup`
    closure).

    What the media engine and the file system answer during a setup is an
    `Engine` value: `None` or `false` for a call that throws. The ffmpeg
    process itself is not modelled; its spawn is recorded as a request, and
    its exit is the event that runs the recording's cleanup. */
module Recording {
  import opened Wrappers
  import opened Text
  import opened Media
  import opened Codec
  import opened Sdp
  import opened PortAllocation

  /** Scans of the port range before the setup gives up. */
  const MaxAttempts: nat := 5

  datatype TransportReply = TransportReply(id: string, localIp: string)
  datatype ConsumerReply = ConsumerReply(id: string, rtpParameters: RtpParameters)

  /** The answers of the external calls of one setup. */
  datatype Engine = Engine(
    /** `mediasoupRouter.createPlainTransport(...)` */
    plainTransport: Option<TransportReply>,
    /** `plainTransport.consume(...)` */
    consumer: Option<ConsumerReply>,
    /** `plainTransport.connect(...)` succeeds */
    connects: bool,
    /** the recordings directory exists or is made, and the SDP file is written */
    filesWritten: bool)

  /** `spawnFFmpeg(sdpFilePath, outputPath, port)` */
  datatype SpawnRequest = SpawnRequest(sdpFilePath: string, outputPath: string, port: int)

  /** What the `cleanup` closure captures. */
  datatype CleanupClosure = CleanupClosure(producerId: string, transportId: string, port: int, sdpFilePath: string)

  /** The `recordingInfo` object stored in `activeRecordings`. */
  datatype RecordingInfo = RecordingInfo(
    plainTransport: PlainTransport,
    consumer: Consumer,
    ffmpeg: SpawnRequest,
    outputPath: string,
    port: int,
    cleanup: CleanupClosure)

  /** The `writeFileSync(sdpFilePath, sdpContent)` of a setup. */
  datatype SdpFile = SdpFile(path: string, content: string)

  datatype Prepared = Prepared(info: RecordingInfo, sdpFile: SdpFile)

  /** Why the part of a setup after the port scans throws; every such error
      is caught and the setup returns null. */
  datatype SetupError =
    | TransportFailed
    | ConsumeFailed
    | ConnectFailed
    | CodecFailed(error: CodecError)
    /** with an empty codec list the copy's `codecs[0]` is a codec holding only
        a payload type, and reading its `mimeType` in `createSdpText` throws */
    | CodecWithoutMimeType
    | FileSystemFailed

  /** `${targetProducer.id}_${Date.now()}_${Math.floor(Math.random() * 1000)}` */
  function SessionId(producerId: string, now: int, random: int): string {
    producerId + "_" + IntToString(now) + "_" + IntToString(random)
  }

  /** `path.join(dir, name)` for a directory without a trailing separator. */
  function PathJoin(dir: string, name: string): string {
    dir + "/" + name
  }

  /** The producer copy handed to `createSdpText`: its first codec carries the
      given payload type; the producer itself, a value, is left as it was. */
  function WithFirstPayloadType(producer: Producer, pt: int): (copy: Producer)
    requires |producer.rtpParameters.codecs| > 0
    ensures copy.id == producer.id && copy.kind == producer.kind
    ensures |copy.rtpParameters.codecs| == |producer.rtpParameters.codecs|
    ensures copy.rtpParameters.codecs[0].payloadType == pt
    ensures copy.rtpParameters.codecs[0] == producer.rtpParameters.codecs[0].(payloadType := pt)
    ensures forall i :: 1 <= i < |copy.rtpParameters.codecs| ==>
              copy.rtpParameters.codecs[i] == producer.rtpParameters.codecs[i]
  {
    var codecs := producer.rtpParameters.codecs;
    producer.(rtpParameters := RtpParameters(codecs[0 := codecs[0].(payloadType := pt)]))
  }

  /** Overriding a payload type changes no MIME type, so the copy has a
      describable audio codec exactly when the producer has one. */
  lemma {:induction false} CopyDescribesLikeProducer(producer: Producer, pt: int)
    requires |producer.rtpParameters.codecs| > 0
    ensures GetCodecInfoFromRtpParameters(Audio, WithFirstPayloadType(producer, pt).rtpParameters).Success?
            <==> GetCodecInfoFromRtpParameters(Audio, producer.rtpParameters).Success?
  {
    var codecs := producer.rtpParameters.codecs;
    var copy := WithFirstPayloadType(producer, pt).rtpParameters;
    assert forall j :: 0 <= j < |codecs| ==> copy.codecs[j].mimeType == codecs[j].mimeType;
    assert forall j :: 0 <= j < |codecs| ==> (OfKind(Audio, copy.codecs[j]) <==> OfKind(Audio, codecs[j]));
    match FindFirstOfKind(Audio, codecs)
    case None =>
    case Some(i) =>
      assert IsFirstOfKind(Audio, copy.codecs, i);
  }

  /** The part of a setup between the port scans and the registration: plain
      transport, consumer, connect, descriptor of the consumer, payload-type
      override, session description, and the files. */
  function PrepareRecording(producer: Producer, ffmpegPort: int, transportPort: int, engine: Engine,
                            sessionId: string, outputDir: string, tmpDir: string): (r: Result<Prepared, SetupError>)
    ensures r.Success? ==>
              engine.plainTransport.Some? && engine.consumer.Some? && engine.connects && engine.filesWritten
    ensures r.Success? ==>
              var info := r.value.info;
              && info.port == ffmpegPort
              && info.plainTransport.localPort == transportPort
              && info.consumer.producerId == producer.id
              && info.consumer == Consumer(engine.consumer.value.id, producer.id, engine.consumer.value.rtpParameters)
              && info.plainTransport == PlainTransport(engine.plainTransport.value.id, engine.plainTransport.value.localIp, transportPort)
              && info.cleanup == CleanupClosure(producer.id, info.plainTransport.id, ffmpegPort, r.value.sdpFile.path)
              && info.ffmpeg == SpawnRequest(r.value.sdpFile.path, info.outputPath, ffmpegPort)
              && GetCodecInfoFromRtpParameters(Audio, info.consumer.rtpParameters).Success?
              && |producer.rtpParameters.codecs| > 0
    ensures !engine.connects || !engine.filesWritten || engine.plainTransport.None? || engine.consumer.None? ==> r.Failure?
    ensures r.Success? <==>
              && engine.plainTransport.Some? && engine.consumer.Some? && engine.connects && engine.filesWritten
              && GetCodecInfoFromRtpParameters(Audio, engine.consumer.value.rtpParameters).Success?
              && |producer.rtpParameters.codecs| > 0
              && GetCodecInfoFromRtpParameters(Audio, producer.rtpParameters).Success?
  {
    match engine.plainTransport
    case None => Failure(TransportFailed)
    case Some(t) =>
      var plainTransport := PlainTransport(t.id, t.localIp, transportPort);
      match engine.consumer
      case None => Failure(ConsumeFailed)
      case Some(c) =>
        var consumer := Consumer(c.id, producer.id, c.rtpParameters);
        if !engine.connects then Failure(ConnectFailed)
        else
          match GetCodecInfoFromRtpParameters(Audio, consumer.rtpParameters)
          case Failure(e) => Failure(CodecFailed(e))
          case Success(consumerCodecInfo) =>
            if |producer.rtpParameters.codecs| == 0 then Failure(CodecWithoutMimeType)
            else
              var producerCopy := WithFirstPayloadType(producer, consumerCodecInfo.payloadType);
              CopyDescribesLikeProducer(producer, consumerCodecInfo.payloadType);
              match CreateSdpText(producerCopy, plainTransport, ffmpegPort)
              case Failure(e) => Failure(CodecFailed(e))
              case Success(sdpContent) =>
                if !engine.filesWritten then Failure(FileSystemFailed)
                else
                  var outputPath := PathJoin(outputDir, "recording_" + sessionId + ".mp3");
                  var sdpFilePath := PathJoin(tmpDir, "recording_" + sessionId + ".sdp");
                  var cleanup := CleanupClosure(producer.id, plainTransport.id, ffmpegPort, sdpFilePath);
                  Success(Prepared(
                    RecordingInfo(plainTransport, consumer, SpawnRequest(sdpFilePath, outputPath, ffmpegPort),
                                  outputPath, ffmpegPort, cleanup),
                    SdpFile(sdpFilePath, sdpContent)))
  }

  /** The payload-type guard: when the producer's first codec is its first
      audio codec, the description handed to ffmpeg carries, on the media line
      and on the rtpmap attribute, the payload type the tapping consumer
      negotiated, and the port ffmpeg listens on. */
  lemma SdpUsesConsumerPayloadType(producer: Producer, ffmpegPort: int, transportPort: int, engine: Engine,
                                   sessionId: string, outputDir: string, tmpDir: string)
    requires PrepareRecording(producer, ffmpegPort, transportPort, engine, sessionId, outputDir, tmpDir).Success?
    requires IsFirstOfKind(Audio, producer.rtpParameters.codecs, 0)
    requires '\n' !in engine.plainTransport.value.localIp
    requires var name := GetCodecInfoFromRtpParameters(Audio, producer.rtpParameters).value.codecName;
             ' ' !in name && '\n' !in name
    ensures var p := PrepareRecording(producer, ffmpegPort, transportPort, engine, sessionId, outputDir, tmpDir).value;
            var consumerPt := GetCodecInfoFromRtpParameters(Audio, p.info.consumer.rtpParameters).value.payloadType;
            var summary := ParseSdp(p.sdpFile.content);
            && summary.Some?
            && summary.value.mediaPayloadType == consumerPt
            && summary.value.rtpmapPayloadType == consumerPt
            && summary.value.mediaPort == ffmpegPort
            && summary.value.connectionIp == p.info.plainTransport.localIp
  {
    var consumerPt := GetCodecInfoFromRtpParameters(Audio, engine.consumer.value.rtpParameters).value.payloadType;
    var copy := WithFirstPayloadType(producer, consumerPt);
    var plainTransport := PlainTransport(engine.plainTransport.value.id, engine.plainTransport.value.localIp, transportPort);
    assert IsFirstOfKind(Audio, copy.rtpParameters.codecs, 0);
    SelectedCodecInfo(Audio, producer.rtpParameters, 0);
    SelectedCodecInfo(Audio, copy.rtpParameters, 0);
    SdpRoundTrip(copy, plainTransport, ffmpegPort);
  }

  /** The quirk of the override: when an earlier non-audio codec precedes the
      first audio codec, the override lands on the non-audio codec, and the
      description keeps the producer's own audio payload type. */
  lemma OverrideMissesLaterAudioCodec(producer: Producer, ffmpegPort: int, transportPort: int, engine: Engine,
                                      sessionId: string, outputDir: string, tmpDir: string, i: int)
    requires PrepareRecording(producer, ffmpegPort, transportPort, engine, sessionId, outputDir, tmpDir).Success?
    requires i > 0 && IsFirstOfKind(Audio, producer.rtpParameters.codecs, i)
    requires '\n' !in engine.plainTransport.value.localIp
    requires var name := GetCodecInfoFromRtpParameters(Audio, producer.rtpParameters).value.codecName;
             ' ' !in name && '\n' !in name
    ensures var p := PrepareRecording(producer, ffmpegPort, transportPort, engine, sessionId, outputDir, tmpDir).value;
            var summary := ParseSdp(p.sdpFile.content);
            && summary.Some?
            && summary.value.mediaPayloadType == producer.rtpParameters.codecs[i].payloadType
            && summary.value.rtpmapPayloadType == producer.rtpParameters.codecs[i].payloadType
  {
    var consumerPt := GetCodecInfoFromRtpParameters(Audio, engine.consumer.value.rtpParameters).value.payloadType;
    var copy := WithFirstPayloadType(producer, consumerPt);
    var plainTransport := PlainTransport(engine.plainTransport.value.id, engine.plainTransport.value.localIp, transportPort);
    assert copy.rtpParameters.codecs[0].mimeType == producer.rtpParameters.codecs[0].mimeType;
    assert IsFirstOfKind(Audio, copy.rtpParameters.codecs, i);
    SelectedCodecInfo(Audio, producer.rtpParameters, i);
    SelectedCodecInfo(Audio, copy.rtpParameters, i);
    SdpRoundTrip(copy, plainTransport, ffmpegPort);
  }

  /** The descriptor of an `audio/opus` codec selected at index `i`. */
  lemma OpusCodecInfo(params: RtpParameters, i: int)
    requires IsFirstOfKind(Audio, params.codecs, i) && params.codecs[i].mimeType == "audio/opus"
    ensures GetCodecInfoFromRtpParameters(Audio, params).Success?
    ensures GetCodecInfoFromRtpParameters(Audio, params).value.codecName == "opus"
    ensures GetCodecInfoFromRtpParameters(Audio, params).value.payloadType == params.codecs[i].payloadType
    ensures var name := GetCodecInfoFromRtpParameters(Audio, params).value.codecName;
            ' ' !in name && '\n' !in name
  {
    var name := "opus";
    forall k | 0 <= k < |name|
      ensures name[k] != ' ' && name[k] != '\n'
    {
    }
    assert "audio/opus" == "audio" + ['/'] + "opus";
    SplitAtFirstSeparator("audio", "opus", '/');
    SplitWithoutSeparator("opus", '/');
    assert ToLower("opus") == "opus";
    SelectedCodecInfo(Audio, params, i);
  }

  lemma OpusIsAudio(c: RtpCodec)
    requires c.mimeType == "audio/opus"
    ensures OfKind(Audio, c)
  {
    assert ToLower(c.mimeType)[..5] == "audio";
  }

  lemma Vp8IsNotAudio(c: RtpCodec)
    requires c.mimeType == "video/vp8"
    ensures !OfKind(Audio, c)
  {
    var m := "video/vp8";
    forall i | 0 <= i < |m|
      ensures ToLower(m)[i] != 'a'
    {
      assert m[i] != 'a' && m[i] != 'A';
    }
    ContainsNeedsFirstChar(ToLower(m), "audio");
  }

  lemma LoopbackHasNoNewline()
    ensures '\n' !in "127.0.0.1"
  {
    var a := "127.0.0.1";
    forall i | 0 <= i < |a|
      ensures a[i] != '\n'
    {
    }
  }

  /** An Opus producer, and one whose first codec is video. */
  const OpusProducer: Producer :=
    Producer("p", Audio, RtpParameters([RtpCodec("audio/opus", 111, 48000, Some(2))]))
  const VideoFirstProducer: Producer :=
    Producer("p", Audio, RtpParameters([RtpCodec("video/vp8", 96, 90000, None), RtpCodec("audio/opus", 111, 48000, Some(2))]))

  /** Engine answers with every call succeeding and an Opus consumer on payload type 100. */
  const OpusConsumerParams: RtpParameters := RtpParameters([RtpCodec("audio/opus", 100, 48000, Some(2))])
  const LoopbackEngine: Engine :=
    Engine(Some(TransportReply("t", "127.0.0.1")), Some(ConsumerReply("c", OpusConsumerParams)), true, true)

  lemma LoopbackEngineSucceeds(producer: Producer)
    requires |producer.rtpParameters.codecs| > 0
    requires GetCodecInfoFromRtpParameters(Audio, producer.rtpParameters).Success?
    ensures PrepareRecording(producer, 50000, 50001, LoopbackEngine, "s", "out", "tmp").Success?
    ensures GetCodecInfoFromRtpParameters(Audio, OpusConsumerParams).value.payloadType == 100
    ensures '\n' !in LoopbackEngine.plainTransport.value.localIp
  {
    OpusIsAudio(OpusConsumerParams.codecs[0]);
    OpusCodecInfo(OpusConsumerParams, 0);
    LoopbackHasNoNewline();
  }

  /** Behind a VP8 codec, `find` selects the Opus codec that follows it. */
  lemma OpusBehindVp8Selected(params: RtpParameters)
    requires |params.codecs| >= 2
    requires params.codecs[0].mimeType == "video/vp8" && params.codecs[1].mimeType == "audio/opus"
    ensures IsFirstOfKind(Audio, params.codecs, 1)
    ensures var info := GetCodecInfoFromRtpParameters(Audio, params);
            && info.Success? && info.value.payloadType == params.codecs[1].payloadType
            && ' ' !in info.value.codecName && '\n' !in info.value.codecName
  {
    Vp8IsNotAudio(params.codecs[0]);
    OpusIsAudio(params.codecs[1]);
    OpusCodecInfo(params, 1);
  }

  /** A setup whose external calls all succeed, for an Opus producer whose
      consumer negotiated payload type 100: the description carries 100. */
  lemma ConsumerPayloadTypeExample()
    ensures var r := PrepareRecording(OpusProducer, 50000, 50001, LoopbackEngine, "s", "out", "tmp");
            && r.Success?
            && ParseSdp(r.value.sdpFile.content).Some?
            && ParseSdp(r.value.sdpFile.content).value.mediaPayloadType == 100
            && ParseSdp(r.value.sdpFile.content).value.mediaPort == 50000
  {
    OpusIsAudio(OpusProducer.rtpParameters.codecs[0]);
    OpusCodecInfo(OpusProducer.rtpParameters, 0);
    LoopbackEngineSucceeds(OpusProducer);
    SdpUsesConsumerPayloadType(OpusProducer, 50000, 50001, LoopbackEngine, "s", "out", "tmp");
  }

  /** The quirk on a video-then-audio producer: the consumer negotiated 100,
      but the description keeps the producer's audio payload type 111. */
  lemma LaterAudioCodecExample()
    ensures var r := PrepareRecording(VideoFirstProducer, 50000, 50001, LoopbackEngine, "s", "out", "tmp");
            && r.Success?
            && ParseSdp(r.value.sdpFile.content).Some?
            && ParseSdp(r.value.sdpFile.content).value.mediaPayloadType == 111
            && GetCodecInfoFromRtpParameters(Audio, r.value.info.consumer.rtpParameters).value.payloadType == 100
  {
    OpusBehindVp8Selected(VideoFirstProducer.rtpParameters);
    LoopbackEngineSucceeds(VideoFirstProducer);
    OverrideMissesLaterAudioCodec(VideoFirstProducer, 50000, 50001, LoopbackEngine, "s", "out", "tmp", 1);
  }

  /** The probe's answers during the scan numbered `k` of one setup. */
  function ScanProbe(probe: (nat, int) -> bool, k: nat): int -> bool {
    p => probe(k, p)
  }

  /** The retry loop: the first of the scans `k`, `k + 1`, ... below
      `MaxAttempts` that finds a port, with the port it finds. A failed scan
      changes nothing, so every scan sees the same table. */
  function FirstSuccessfulScan(used: map<int, PortEntry>, probe: (nat, int) -> bool, k: nat): (r: Option<(nat, int)>)
    ensures r.Some? ==>
              && k <= r.value.0 < MaxAttempts
              && FirstAvailable(used, PortRangeStart, PortRangeEnd, ScanProbe(probe, r.value.0)) == Some(r.value.1)
              && forall j :: k <= j < r.value.0 ==>
                   FirstAvailable(used, PortRangeStart, PortRangeEnd, ScanProbe(probe, j)).None?
    ensures r.None? ==>
              forall j :: k <= j < MaxAttempts ==>
                FirstAvailable(used, PortRangeStart, PortRangeEnd, ScanProbe(probe, j)).None?
    decreases MaxAttempts - k
  {
    if k >= MaxAttempts then None
    else
      match FirstAvailable(used, PortRangeStart, PortRangeEnd, ScanProbe(probe, k))
      case Some(p) => Some((k, p))
      case None => FirstSuccessfulScan(used, probe, k + 1)
  }

  /** The two ports a setup reserves: the recording port from the retry loop,
      then `plainTransportPort` from one more scan. */
  function ScannedPorts(used: map<int, PortEntry>, probe: (nat, int) -> bool): Option<(int, int)> {
    match FirstSuccessfulScan(used, probe, 0)
    case None => None
    case Some((k, p1)) =>
      match FirstAvailable(used[p1 := PortEntry(true, None)], PortRangeStart, PortRangeEnd, ScanProbe(probe, k + 1))
      case None => None
      case Some(p2) => Some((p1, p2))
  }

  /** The port table after the scans of a setup, whatever happens next: the
      ports found stay reserved even when the setup later fails. */
  function AfterScans(s: PortState, probe: (nat, int) -> bool): PortState {
    match FirstSuccessfulScan(s.usedPorts, probe, 0)
    case None => s
    case Some((k, p1)) =>
      var s1 := Reserve(s, p1);
      match FirstAvailable(s1.usedPorts, PortRangeStart, PortRangeEnd, ScanProbe(probe, k + 1))
      case None => s1
      case Some(p2) => Reserve(s1, p2)
  }

  /** The two ports of a setup are distinct, in range, were not marked in use,
      and are the only entries the scans change. When every scan of the
      retry loop fails, nothing is reserved. */
  lemma ScansReserveDistinctFreePorts(s: PortState, probe: (nat, int) -> bool)
    ensures FirstSuccessfulScan(s.usedPorts, probe, 0).None? ==> AfterScans(s, probe) == s
    ensures ScannedPorts(s.usedPorts, probe).Some? ==>
              var (p1, p2) := ScannedPorts(s.usedPorts, probe).value;
              && p1 != p2
              && PortRangeStart <= p1 <= PortRangeEnd && PortRangeStart <= p2 <= PortRangeEnd
              && !MarkedInUse(s.usedPorts, p1) && !MarkedInUse(s.usedPorts, p2)
              && AfterScans(s, probe).usedPorts == s.usedPorts[p1 := PortEntry(true, None)][p2 := PortEntry(true, None)]
              && AfterScans(s, probe).pending == s.pending
  {
  }

  /** A port reserved for a recording, with no release scheduled. */
  ghost predicate Held(used: map<int, PortEntry>, port: int) {
    port in used && used[port].releaseTimer.None?
  }

  /** The registry's invariant over the port table: each entry is stored
      under its producer's id, its cleanup captures that id and its port, both
      of its ports are held, and no two recordings share a port. */
  ghost predicate RegistryConsistent(active: map<string, RecordingInfo>, used: map<int, PortEntry>) {
    && (forall id :: id in active ==>
          && active[id].cleanup.producerId == id
          && active[id].cleanup.port == active[id].port
          && Held(used, active[id].port)
          && Held(used, active[id].plainTransport.localPort)
          && active[id].port != active[id].plainTransport.localPort)
    && (forall a, b :: a in active && b in active && a != b ==>
          && active[a].port != active[b].port
          && active[a].port != active[b].plainTransport.localPort
          && active[a].plainTransport.localPort != active[b].plainTransport.localPort)
  }

  lemma ReserveKeepsRegistry(active: map<string, RecordingInfo>, s: PortState, p: int)
    requires Consistent(s) && RegistryConsistent(active, s.usedPorts) && !MarkedInUse(s.usedPorts, p)
    ensures RegistryConsistent(active, Reserve(s, p).usedPorts)
    ensures forall id :: id in active ==> active[id].port != p && active[id].plainTransport.localPort != p
  {
  }

  lemma InsertKeepsRegistry(active: map<string, RecordingInfo>, used: map<int, PortEntry>, id: string, info: RecordingInfo)
    requires RegistryConsistent(active, used) && id !in active
    requires info.cleanup.producerId == id && info.cleanup.port == info.port
    requires Held(used, info.port) && Held(used, info.plainTransport.localPort)
    requires info.port != info.plainTransport.localPort
    requires forall other :: other in active ==>
               && active[other].port != info.port && active[other].port != info.plainTransport.localPort
               && active[other].plainTransport.localPort != info.port
               && active[other].plainTransport.localPort != info.plainTransport.localPort
    ensures RegistryConsistent(active[id := info], used)
  {
  }

  lemma ReleaseKeepsRegistry(active: map<string, RecordingInfo>, s: PortState, id: string)
    requires Consistent(s) && RegistryConsistent(active, s.usedPorts) && id in active
    ensures RegistryConsistent(active - {id}, Release(s, active[id].port).usedPorts)
  {
    var rest := active - {id};
    var u := Release(s, active[id].port).usedPorts;
    forall other | other in rest
      ensures Held(u, rest[other].port) && Held(u, rest[other].plainTransport.localPort)
    {
      assert active[other].port != active[id].port;
      assert active[other].plainTransport.localPort != active[id].port;
    }
  }

  /** The cleanup releases the recording port only: the plain transport's
      port stays reserved, with no release timer that could ever free it. */
  lemma CleanupKeepsTransportPort(active: map<string, RecordingInfo>, s: PortState, id: string)
    requires Consistent(s) && RegistryConsistent(active, s.usedPorts) && id in active
    ensures var s' := Release(s, active[id].port);
            var q := active[id].plainTransport.localPort;
            && MarkedInUse(s'.usedPorts, q)
            && Held(s'.usedPorts, q)
            && forall t :: t in s'.pending ==> t.port != q
  {
    var s' := Release(s, active[id].port);
    var q := active[id].plainTransport.localPort;
    forall t | t in s'.pending
      ensures t.port != q
    {
      ReleasePreservesConsistent(s, active[id].port);
    }
  }

  lemma FireKeepsRegistry(active: map<string, RecordingInfo>, s: PortState, t: Timer)
    requires Consistent(s) && RegistryConsistent(active, s.usedPorts)
    ensures RegistryConsistent(active, Fire(s, t).usedPorts)
  {
    if t in s.pending {
      forall id | id in active
        ensures active[id].port != t.port && active[id].plainTransport.localPort != t.port
      {
      }
    }
  }

  /** The outcome of a setup for a producer not yet recorded, from port table
      `s` and registry `active` to `s'` and `active'`: both scans' ports stay
      reserved whatever happens next, and the recording is stored and
      returned exactly when both scans find a port and every later step
      succeeds. */
  ghost predicate NewRecordingOutcome(s: PortState, active: map<string, RecordingInfo>, producer: Producer,
                                      probe: (nat, int) -> bool, engine: Engine, now: int, random: int,
                                      outputDir: string, tmpDir: string,
                                      s': PortState, active': map<string, RecordingInfo>,
                                      r: Option<RecordingInfo>, sdpFile: Option<SdpFile>)
  {
    var sessionId := SessionId(producer.id, now, random);
    var ports := ScannedPorts(s.usedPorts, probe);
    && s' == AfterScans(s, probe)
    && (r.Some? <==>
          ports.Some? &&
          PrepareRecording(producer, ports.value.0, ports.value.1, engine, sessionId, outputDir, tmpDir).Success?)
    && (r.Some? ==>
          var prepared := PrepareRecording(producer, ports.value.0, ports.value.1, engine, sessionId, outputDir, tmpDir).value;
          && r == Some(prepared.info)
          && sdpFile == Some(prepared.sdpFile)
          && active' == active[producer.id := prepared.info])
    && (r.None? ==> sdpFile.None? && active' == active)
  }

  lemma NoPortOutcome(s: PortState, active: map<string, RecordingInfo>, producer: Producer,
                      probe: (nat, int) -> bool, engine: Engine, now: int, random: int,
                      outputDir: string, tmpDir: string)
    requires FirstSuccessfulScan(s.usedPorts, probe, 0).None?
    ensures NewRecordingOutcome(s, active, producer, probe, engine, now, random, outputDir, tmpDir,
                                s, active, None, None)
  {
  }

  lemma NoTransportPortOutcome(s: PortState, active: map<string, RecordingInfo>, producer: Producer,
                               probe: (nat, int) -> bool, engine: Engine, now: int, random: int,
                               outputDir: string, tmpDir: string, k: nat, p1: int)
    requires FirstSuccessfulScan(s.usedPorts, probe, 0) == Some((k, p1))
    requires FirstAvailable(Reserve(s, p1).usedPorts, PortRangeStart, PortRangeEnd, ScanProbe(probe, k + 1)).None?
    ensures NewRecordingOutcome(s, active, producer, probe, engine, now, random, outputDir, tmpDir,
                                Reserve(s, p1), active, None, None)
  {
    assert Reserve(s, p1).usedPorts == s.usedPorts[p1 := PortEntry(true, None)];
    assert ScannedPorts(s.usedPorts, probe).None?;
    assert AfterScans(s, probe) == Reserve(s, p1);
  }

  lemma BothPortsOutcome(s: PortState, active: map<string, RecordingInfo>, producer: Producer,
                         probe: (nat, int) -> bool, engine: Engine, now: int, random: int,
                         outputDir: string, tmpDir: string, k: nat, p1: int, p2: int)
    requires FirstSuccessfulScan(s.usedPorts, probe, 0) == Some((k, p1))
    requires FirstAvailable(Reserve(s, p1).usedPorts, PortRangeStart, PortRangeEnd, ScanProbe(probe, k + 1)) == Some(p2)
    ensures var prepared := PrepareRecording(producer, p1, p2, engine, SessionId(producer.id, now, random), outputDir, tmpDir);
            && (prepared.Failure? ==>
                  NewRecordingOutcome(s, active, producer, probe, engine, now, random, outputDir, tmpDir,
                                      Reserve(Reserve(s, p1), p2), active, None, None))
            && (prepared.Success? ==>
                  NewRecordingOutcome(s, active, producer, probe, engine, now, random, outputDir, tmpDir,
                                      Reserve(Reserve(s, p1), p2), active[producer.id := prepared.value.info],
                                      Some(prepared.value.info), Some(prepared.value.sdpFile)))
  {
    assert ScannedPorts(s.usedPorts, probe) == Some((p1, p2));
  }

  /** The module-level state of the recording code: the port table and
      `activeRecordings`, keyed by producer id. */
  class RecordingRegistry {
    const ports: PortTable
    var activeRecordings: map<string, RecordingInfo>

    ghost predicate Valid()
      reads this, ports
    {
      ports.Valid() && RegistryConsistent(activeRecordings, ports.usedPorts)
    }

    constructor ()
      ensures Valid() && fresh(ports)
      ensures activeRecordings == map[]
      ensures ports.State() == PortState(map[], {}, 0)
    {
      ports := new PortTable();
      activeRecordings := map[];
    }

    /** The retry loop of `setupRecordingForProducer`: up to `MaxAttempts`
        scans of the recording range; the first port found is reserved. */
    method ReserveRecordingPort(probe: (nat, int) -> bool) returns (found: Option<(nat, int)>)
      requires Valid()
      modifies ports
      ensures Valid()
      ensures found == FirstSuccessfulScan(old(ports.usedPorts), probe, 0)
      ensures found.None? ==> ports.State() == old(ports.State())
      ensures found.Some? ==> ports.State() == Reserve(old(ports.State()), found.value.1)
    {
      var attempts: nat := 0;
      while attempts < MaxAttempts
        invariant attempts <= MaxAttempts
        invariant Valid()
        invariant ports.State() == old(ports.State())
        invariant FirstSuccessfulScan(ports.usedPorts, probe, attempts) == FirstSuccessfulScan(ports.usedPorts, probe, 0)
        decreases MaxAttempts - attempts
      {
        var s := ports.State();
        var res := ports.FindAvailablePort(PortRangeStart, PortRangeEnd, ScanProbe(probe, attempts));
        if res.Success? {
          ReserveKeepsRegistry(activeRecordings, s, res.value);
          return Some((attempts, res.value));
        }
        attempts := attempts + 1;
        if attempts >= MaxAttempts {
          // the last failure is rethrown
          return None;
        }
        // a 200 ms pause before the next scan
      }
      return None;
    }

    /** `setupRecordingForProducer(specifiedProducer)`, with `current` the
        module-level producer it falls back to, `probe(k, p)` the probe's
        answer for port `p` during the `k`-th scan of this call, and `now`,
        `random` the clock and random values of the session id. Returns the
        stored `recordingInfo` or null, and the SDP file it writes. */
    method SetupRecordingForProducer(specified: Option<Producer>, current: Option<Producer>,
                                     probe: (nat, int) -> bool, engine: Engine,
                                     now: int, random: int, outputDir: string, tmpDir: string)
      returns (r: Option<RecordingInfo>, sdpFile: Option<SdpFile>)
      requires Valid()
      modifies this, ports
      ensures Valid()
      // no producer: null, nothing changes
      ensures specified.None? && current.None? ==>
                r.None? && sdpFile.None? &&
                activeRecordings == old(activeRecordings) && ports.State() == old(ports.State())
      // already recorded: the existing entry, nothing changes
      ensures var target := if specified.Some? then specified else current;
              target.Some? && target.value.id in old(activeRecordings) ==>
                r == Some(old(activeRecordings)[target.value.id]) && sdpFile.None? &&
                activeRecordings == old(activeRecordings) && ports.State() == old(ports.State())
      // a new recording
      ensures var target := if specified.Some? then specified else current;
              target.Some? && target.value.id !in old(activeRecordings) ==>
                NewRecordingOutcome(old(ports.State()), old(activeRecordings), target.value, probe, engine,
                                    now, random, outputDir, tmpDir, ports.State(), activeRecordings, r, sdpFile)
    {
      var target := if specified.Some? then specified else current;
      if target.None? {
        return None, None;
      }
      var producer := target.value;
      if producer.id in activeRecordings {
        return Some(activeRecordings[producer.id]), None;
      }
      r, sdpFile := StartRecording(producer, probe, engine, now, random, outputDir, tmpDir);
    }

    /** The rest of a setup, for a producer that is not being recorded. */
    method StartRecording(producer: Producer, probe: (nat, int) -> bool, engine: Engine,
                          now: int, random: int, outputDir: string, tmpDir: string)
      returns (r: Option<RecordingInfo>, sdpFile: Option<SdpFile>)
      requires Valid() && producer.id !in activeRecordings
      modifies this, ports
      ensures Valid()
      ensures NewRecordingOutcome(old(ports.State()), old(activeRecordings), producer, probe, engine,
                                  now, random, outputDir, tmpDir, ports.State(), activeRecordings, r, sdpFile)
    {
      var sessionId := SessionId(producer.id, now, random);
      ghost var s0 := ports.State();
      ScansReserveDistinctFreePorts(s0, probe);
      var found := ReserveRecordingPort(probe);
      if found.None? {
        NoPortOutcome(s0, activeRecordings, producer, probe, engine, now, random, outputDir, tmpDir);
        return None, None;
      }
      var (k, ffmpegPort) := found.value;
      ghost var s1 := ports.State();
      var second := ports.FindAvailablePort(PortRangeStart, PortRangeEnd, ScanProbe(probe, k + 1));
      if second.Failure? {
        NoTransportPortOutcome(s0, activeRecordings, producer, probe, engine, now, random, outputDir, tmpDir, k, ffmpegPort);
        return None, None;
      }
      var plainTransportPort := second.value;
      ReserveKeepsRegistry(activeRecordings, s1, plainTransportPort);
      BothPortsOutcome(s0, activeRecordings, producer, probe, engine, now, random, outputDir, tmpDir,
                       k, ffmpegPort, plainTransportPort);
      var prepared := PrepareRecording(producer, ffmpegPort, plainTransportPort, engine, sessionId, outputDir, tmpDir);
      if prepared.Failure? {
        // the catch branch releases neither port
        return None, None;
      }
      var info := prepared.value.info;
      InsertKeepsRegistry(activeRecordings, ports.usedPorts, producer.id, info);
      activeRecordings := activeRecordings[producer.id := info];
      return Some(info), Some(prepared.value.sdpFile);
    }

    /** The recording's `cleanup` closure, run by the exit handler of its
        ffmpeg process while the recording is registered: the entry is
        removed and the recording port released (the plain transport's port
        is not). */
    method Cleanup(c: CleanupClosure)
      requires Valid()
      requires c.producerId in activeRecordings && activeRecordings[c.producerId].cleanup == c
      modifies this, ports
      ensures Valid()
      ensures activeRecordings == old(activeRecordings) - {c.producerId}
      ensures ports.State() == Release(old(ports.State()), c.port)
    {
      ReleaseKeepsRegistry(activeRecordings, ports.State(), c.producerId);
      activeRecordings := activeRecordings - {c.producerId};
      ports.ReleasePort(c.port);
    }

    /** The event "release timer `t` fires". */
    method OnReleaseTimer(t: Timer)
      requires Valid()
      modifies ports
      ensures Valid()
      ensures ports.State() == Fire(old(ports.State()), t)
    {
      FireKeepsRegistry(activeRecordings, ports.State(), t);
      ports.FireReleaseTimer(t);
    }
  }
}
