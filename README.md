# Recording pipeline of the media relay server, in Dafny

This project models the recording core of a mediasoup-based relay server:
`server/src/lib/recordingForProducer.ts`, which taps a live audio producer
into an ffmpeg process. The file does four things, and each is a module here:

- **Port reservation** (`PortAllocation`). The table `usedPorts` covers the UDP
  range 50000–51000. `findAvailablePort` scans the range upwards. It skips
  ports marked in use, probes the rest at the operating-system level, and
  reserves the first port the probe accepts. `releasePort` does not free a
  port. It (re)schedules a 2000 ms timer, and the timer's firing deletes the
  entry. The table is the class `PortTable`, with its state as the value
  `PortState` and the transitions `Reserve`, `Release` and `Fire`. Timers are
  values in a `pending` set.
- **Codec descriptor** (`Codec`). `getCodecInfoFromRtpParameters` picks the
  first codec whose lower-cased MIME type contains the kind's name. It copies
  the codec's payload type and clock rate, takes the lower-cased MIME subtype
  as the name, and applies the channel rule.
- **Session description** (`Sdp`). `createSdpText` lays out the eight lines
  of the RFC 4566 description that ffmpeg reads. These lines are the
  version, origin, session name, connection, timing, `m=audio` media line,
  `a=rtpmap` attribute and `a=recvonly`. A reader `ParseSdp` is the builder's
  partner, and a round trip is proved.
- **Recording registry** (`Recording`). `setupRecordingForProducer` and the
  `cleanup` closure it stores. `RecordingRegistry` holds the port table and
  `activeRecordings`, keyed by producer id. Its invariant says that every
  registered recording holds its two ports, with no release scheduled on
  either, and that no two recordings share a port.

`Text` holds the string operations the source uses: ASCII `toLowerCase`,
`includes`, `split`, and decimal formatting of integers. `Media` holds the
engine records the code reads. `ScanSteps` models `findAvailablePort` as an
event-loop task that gives up control at its `await` (see Findings).
`Wrappers` holds `Option` and `Result`.

The external calls are inputs, not modelled behaviour:

- The operating-system probe `isPortAvailable` is an oracle. For the port
  module it is `probe: int -> bool`. For a setup it is `probe(k, p)`, the
  answer for port `p` during the `k`-th scan of that call.
- The mediasoup calls (`createPlainTransport`, `consume`, `connect`) and the
  file-system writes are an `Engine` value. `None` or `false` stands for a
  call that throws.
- `Date.now()` and `Math.floor(Math.random() * 1000)` are the parameters
  `now` and `random`.
- The output and temporary directories are parameters.
- The module-level `producer` that a setup falls back to is the parameter
  `current`. `./ws` is not part of this model.
- The spawned ffmpeg process is recorded as a `SpawnRequest`. Its exit is the
  event that runs `RecordingRegistry.Cleanup`.

Where the code and the design intent differ, the model follows the code:

- A failed setup releases no port. The release in the catch branch is
  commented out. `StartRecording` and `BothPortsOutcome` state this.
- The second reservation, `plainTransportPort`, is never released, not even
  by the cleanup. `CleanupKeepsTransportPort` states this.

There is one exception: the scan. The source's scan is not atomic, and
`ScanSteps` models it as written. Everything else, the registry included,
uses the atomic scan `PortTable.FindAvailablePort`. So `HandedOutDistinct`
and the registry invariant above ("no two recordings share a port") are
proved for the atomic scan, the evidently intended design.
`ScanSteps.InterleavedScansShareAPort` shows the source breaking them when
two setups run at once (see Findings).

## Model

| member | source | states |
|---|---|---|
| Text.ToLowerKeepsNonLetters | server/src/lib/recordingForProducer.ts:135 | lower-casing keeps the length and never creates or removes a non-letter such as `/` |
| Text.ToLower | server/src/lib/recordingForProducer.ts:126 | `toLowerCase` on ASCII: keeps the length and lower-cases each character in place |
| Text.Contains | server/src/lib/recordingForProducer.ts:126-127 | `includes`: a prefix test at each position of the string (characterised by `ContainsIff`) |
| Text.ContainsIff | server/src/lib/recordingForProducer.ts:124-128 | the recursive `includes` holds exactly when the fragment occurs at some index |
| Text.Split | server/src/lib/recordingForProducer.ts:135 | `split` yields at least one part, no part holds the separator, and joining the parts with the separator gives back the string |
| Text.Join | server/src/lib/recordingForProducer.ts:168-175 | the template's line layout: the lines one after another with a line break between neighbours; `Split` undoes it (`SplitJoin`) |
| Text.SplitJoin | server/src/lib/recordingForProducer.ts:168-175 | splitting a join of separator-free parts gives back the parts |
| Text.IntToStringRoundTrip | server/src/lib/recordingForProducer.ts:173-174 | the decimal text interpolated into the template reads back as the same integer |
| Text.IntToString | server/src/lib/recordingForProducer.ts:171-174 | the decimal text of an interpolated integer: at least one character, all digits except a leading minus sign |
| Codec.FindFirstOfKind | server/src/lib/recordingForProducer.ts:124-128 | the index `find` stops at is the first codec of the kind; none exactly when no codec is of the kind |
| Codec.KindName | server/src/lib/recordingForProducer.ts:125-131 | the kind's name: `audio` or `video` as searched for at 125-127, and the `${kind}` of the error text at 131 |
| Codec.OfKind | server/src/lib/recordingForProducer.ts:124-128 | the `find` predicate: the lower-cased MIME type contains `audio` or `video` (for the kind asked) |
| Codec.Describe | server/src/lib/recordingForProducer.ts:134-141 | the descriptor of the selected codec: payload type, lower-cased MIME subtype, clock rate and channel count, or the TypeError of a MIME type without `/` (characterised by `SelectedCodecInfo`) |
| Codec.ChannelCount | server/src/lib/recordingForProducer.ts:138-140 | for audio the codec's channel count, or 2 when it is absent or 0; for video the initial 0 |
| Codec.ErrorMessage | server/src/lib/recordingForProducer.ts:131 | the text of a codec error: `No <kind> codec found`, or the TypeError of the missing subtype |
| Codec.NoCodecFoundMessages | server/src/lib/recordingForProducer.ts:131 | the texts of the two "no codec" errors are "No audio codec found" and "No video codec found" |
| Codec.FirstOfKindUnique | server/src/lib/recordingForProducer.ts:124-128 | at most one index is the first codec of a kind |
| Codec.GetCodecInfoFromRtpParameters | server/src/lib/recordingForProducer.ts:107-143 | "No <kind> codec found" exactly when no codec's lower-cased MIME type contains the kind; otherwise the descriptor of the first such codec |
| Codec.SelectedCodecInfo | server/src/lib/recordingForProducer.ts:130-142 | for the selected codec: fails exactly when the MIME type has no `/`; payload type and clock rate copied; name is the lower-cased subtype without `/`; channels as given, 2 when absent or 0 for audio, 0 for video |
| Sdp.CreateSdpText | server/src/lib/recordingForProducer.ts:145-176 | a description is produced exactly when the producer has a describable audio codec; otherwise the descriptor's error is thrown unchanged |
| Sdp.SdpLines | server/src/lib/recordingForProducer.ts:168-175 | the eight lines of the template literal, in order (read back by `SdpLinesRoundTrip`) |
| Sdp.CodecNameHasNoSlash | server/src/lib/recordingForProducer.ts:135 | a descriptor's codec name never holds `/` |
| Sdp.MediaLineRoundTrip | server/src/lib/recordingForProducer.ts:173 | the `m=audio` line reads back as the port and payload type written into it |
| Sdp.RtpmapLineRoundTrip | server/src/lib/recordingForProducer.ts:174 | the rtpmap line reads back as the payload type, name, clock rate and channels written into it |
| Sdp.LinesHaveNoNewline | server/src/lib/recordingForProducer.ts:168-175 | no line of the template holds a line break when the address and codec name hold none |
| Sdp.SdpLinesRoundTrip | server/src/lib/recordingForProducer.ts:168-175 | the eight joined lines read back as the address, port, payload type (on both the media line and the rtpmap line), name, clock rate and channels |
| Sdp.SdpRoundTrip | server/src/lib/recordingForProducer.ts:145-176 | reading back `createSdpText` gives the transport's address, the ffmpeg port, and the producer's first audio codec on both the media line and the rtpmap line |
| PortAllocation.MarkedInUse | server/src/lib/recordingForProducer.ts:70 | the in-use test: the port has an entry and the entry is marked in use; a port without an entry is not |
| PortAllocation.FirstAvailable | server/src/lib/recordingForProducer.ts:67-81 | the scan stops at the lowest port in range that is neither marked in use nor refused by the probe; none when every port in range is one of the two |
| PortAllocation.ScanSeesOnlyMarks | server/src/lib/recordingForProducer.ts:70 | two tables with the same in-use marks give the same scan result; timers are invisible to the scan |
| PortAllocation.Reserve | server/src/lib/recordingForProducer.ts:75 | `usedPorts.set(port, { inUse: true })`: the entry replaced by one in use with no timer |
| PortAllocation.Release | server/src/lib/recordingForProducer.ts:84-105 | `releasePort`: no change for an unknown port; otherwise the old timer is cancelled and a fresh 2000 ms timer is scheduled, and the entry stays in use |
| PortAllocation.Fire | server/src/lib/recordingForProducer.ts:94-97 | a pending timer's callback: deletes its port's entry and leaves the pending set |
| PortAllocation.ErrorMessage | server/src/lib/recordingForProducer.ts:80 | the text thrown on exhaustion: `No available ports in range <start>-<end>` |
| PortAllocation.RangeExhaustedMessage | server/src/lib/recordingForProducer.ts:80 | for the recording range the text is "No available ports in range 50000-51000" |
| PortAllocation.ReservePreservesConsistent | server/src/lib/recordingForProducer.ts:75 | reserving a port keeps the table consistent: every entry in use, and timers and entries matching one to one |
| PortAllocation.ReleasePreservesConsistent | server/src/lib/recordingForProducer.ts:84-105 | a release keeps the table consistent |
| PortAllocation.FirePreservesConsistent | server/src/lib/recordingForProducer.ts:94-97 | the firing of a timer keeps the table consistent |
| PortAllocation.ReleaseKeepsPortsReserved | server/src/lib/recordingForProducer.ts:84-105 | after a release exactly the same ports are marked in use, so every scan returns what it returned before |
| PortAllocation.ReleaseReplacesTimer | server/src/lib/recordingForProducer.ts:84-105 | releasing an unknown port changes nothing; releasing a known port keeps it in use, cancels its earlier timer, leaves exactly one timer pending for it, and changes no other entry |
| PortAllocation.FireDeletesOnlyItsEntry | server/src/lib/recordingForProducer.ts:94-97 | a pending timer's firing deletes its port's entry and no other, and the port is then free to be handed out |
| PortAllocation.StepPreservesConsistent | server/src/lib/recordingForProducer.ts:67-105 | every scan, release or timer firing keeps the table consistent |
| PortAllocation.ReservedUntilTimerFires | server/src/lib/recordingForProducer.ts:67-105 | a port marked in use stays marked, and is never handed out, in any run of scans, releases and timer firings in which no timer of that port fires |
| PortAllocation.StepKeepsMarks | server/src/lib/recordingForProducer.ts:67-105 | scans and releases never remove an in-use mark |
| PortAllocation.HandedOutDistinct | server/src/lib/recordingForProducer.ts:67-81 | any run of scans and releases without timer firings hands out pairwise distinct ports, none marked in use at its start |
| PortAllocation.PortTable.constructor | server/src/lib/recordingForProducer.ts:18-21 | the table starts empty with no timers |
| PortAllocation.PortTable.FindAvailablePort | server/src/lib/recordingForProducer.ts:67-81 | returns the port of `FirstAvailable`, which is in range, was not marked and is now reserved, and changes nothing else; on exhaustion fails with the range and changes nothing |
| PortAllocation.PortTable.ReleasePort | server/src/lib/recordingForProducer.ts:84-105 | the new table is `Release` of the old one, and it stays consistent |
| PortAllocation.PortTable.FireReleaseTimer | server/src/lib/recordingForProducer.ts:94-97 | the new table is `Fire` of the old one, and it stays consistent |
| ScanSteps.RunToAwait | server/src/lib/recordingForProducer.ts:68-73 | the loop runs to the first port in range not marked in use, skipping only marked ports, or to exhaustion when all are marked |
| ScanSteps.Resume | server/src/lib/recordingForProducer.ts:73-78 | the task resumed with the probe's answer: on acceptance it marks the port and returns it, without repeating the in-use test; otherwise it goes on scanning |
| ScanSteps.Solo | server/src/lib/recordingForProducer.ts:67-81 | the task's result when no other task runs between its steps (equal to the atomic scan by `SoloScanIsAtomic`) |
| ScanSteps.SoloScanIsAtomic | server/src/lib/recordingForProducer.ts:67-81 | a scan task that runs alone, step by step, finds the port of the atomic scan |
| ScanSteps.SkipMarked | server/src/lib/recordingForProducer.ts:70 | skipping marked ports leaves the scan result unchanged |
| ScanSteps.InterleavedScansShareAPort | server/src/lib/recordingForProducer.ts:67-81 | two scans that both reach the await before either resumes both reserve and return port 50000 |
| Recording.WithFirstPayloadType | server/src/lib/recordingForProducer.ts:333-341 | the copy differs from the producer only in the payload type of its first codec |
| Recording.SessionId | server/src/lib/recordingForProducer.ts:261-263 | the session id: producer id, clock value and random number joined with `_` |
| Recording.PathJoin | server/src/lib/recordingForProducer.ts:357-358 | `path.join` of a directory and a file name, without normalisation |
| Recording.CopyDescribesLikeProducer | server/src/lib/recordingForProducer.ts:333-347 | overriding a payload type changes no MIME type, so the copy has a describable audio codec exactly when the producer has one |
| Recording.PrepareRecording | server/src/lib/recordingForProducer.ts:295-441 | success exactly when every external call succeeds, the consumer has a describable audio codec, and the producer has a non-empty codec list with a describable audio codec; then the recording uses the ffmpeg port, the transport uses the second port, the consumer is the engine's reply tapping the producer, the transport is the engine's reply on the second port, the cleanup captures the producer id, ffmpeg port and SDP path, and the consumer has a describable audio codec |
| Recording.SdpUsesConsumerPayloadType | server/src/lib/recordingForProducer.ts:325-347 | when the producer's first codec is its first audio codec, the description carries the consumer's payload type on both lines, the ffmpeg port, and the transport's address |
| Recording.OverrideMissesLaterAudioCodec | server/src/lib/recordingForProducer.ts:331-347 | when a non-audio codec comes before the first audio codec, the description keeps that audio codec's own payload type on both lines |
| Recording.ConsumerPayloadTypeExample | server/src/lib/recordingForProducer.ts:325-347 | an Opus producer on payload type 111 whose consumer negotiated 100, with every call succeeding: the setup succeeds, and the description carries 100 on port 50000 |
| Recording.LaterAudioCodecExample | server/src/lib/recordingForProducer.ts:331-347 | a producer with a VP8 codec before its Opus codec (111), and a consumer on 100: the setup succeeds, but the description carries 111 while the consumer sends 100 |
| Recording.FirstSuccessfulScan | server/src/lib/recordingForProducer.ts:266-284 | the retry loop ends at the first of the five scans that finds a port, with that port, or with none after five failed scans; all five scans see the same table, and only the probe's answers differ between them |
| Recording.ScannedPorts | server/src/lib/recordingForProducer.ts:266-294 | the two ports a setup reserves: the retry loop's port, then the port of one more scan of the table with the first port marked |
| Recording.AfterScans | server/src/lib/recordingForProducer.ts:266-294 | the port table after a setup's scans, whatever happens next: the ports found stay reserved |
| Recording.ScansReserveDistinctFreePorts | server/src/lib/recordingForProducer.ts:266-294 | when the five scans fail, nothing is reserved; otherwise the two ports are distinct, in range, were free, and are the only entries the scans add |
| Recording.ReserveKeepsRegistry | server/src/lib/recordingForProducer.ts:75 | reserving a free port keeps the registry invariant, and the port is none of a registered recording's ports |
| Recording.InsertKeepsRegistry | server/src/lib/recordingForProducer.ts:438-439 | registering a recording whose two held ports are new keeps the registry invariant |
| Recording.ReleaseKeepsRegistry | server/src/lib/recordingForProducer.ts:377-400 | removing a recording and releasing its port keeps the invariant for the other recordings |
| Recording.CleanupKeepsTransportPort | server/src/lib/recordingForProducer.ts:389-390 | after the cleanup's release, the plain transport's port is still reserved, with no timer pending that could free it |
| Recording.FireKeepsRegistry | server/src/lib/recordingForProducer.ts:94-97 | a timer firing never frees a port a registered recording holds |
| Recording.NoPortOutcome | server/src/lib/recordingForProducer.ts:276-284 | when all five scans fail, the setup returns null and changes nothing |
| Recording.NoTransportPortOutcome | server/src/lib/recordingForProducer.ts:291-294 | when the second scan fails, the setup returns null and the recording port stays reserved |
| Recording.BothPortsOutcome | server/src/lib/recordingForProducer.ts:291-451 | when both scans succeed, both ports stay reserved; the recording is registered and returned exactly when the rest of the setup succeeds |
| Recording.RecordingRegistry.constructor | server/src/lib/recordingForProducer.ts:18-37 | the registry and the port table start empty |
| Recording.RecordingRegistry.ReserveRecordingPort | server/src/lib/recordingForProducer.ts:266-284 | the retry loop returns the scan number and port of `FirstSuccessfulScan` and reserves that port, or changes nothing |
| Recording.RecordingRegistry.SetupRecordingForProducer | server/src/lib/recordingForProducer.ts:245-452 | without a producer: null, nothing changes; for a producer already recorded: its existing entry, nothing changes; otherwise the outcome of `StartRecording` |
| Recording.RecordingRegistry.StartRecording | server/src/lib/recordingForProducer.ts:260-451 | reserves the ports of the scans whatever follows; registers and returns the prepared recording, and its SDP file, exactly when both scans find a port and every later step succeeds; otherwise returns null and leaves the registry unchanged |
| Recording.RecordingRegistry.Cleanup | server/src/lib/recordingForProducer.ts:377-400 | removes the producer's entry, releases the recording port (and not the transport's), and keeps the registry invariant |
| Recording.RecordingRegistry.OnReleaseTimer | server/src/lib/recordingForProducer.ts:94-97 | a release timer's firing changes the table by `Fire` and keeps the registry invariant |

## Left out

- Console logging, and the JSON dumps of the RTP parameters, are not modelled. They have no effect on state.
- `isPortAvailable` (lines 40-64) binds a UDP socket, with a 500 ms timeout. It is an oracle parameter.
- `spawnFFmpeg` (lines 179-243) is not modelled beyond the spawn request: the ffmpeg arguments, stderr monitoring, the 10 s startup kill and the exit log. It is process I/O.
- The 10-minute recording timeout, `ffmpeg.kill`, the 200 ms and 1000 ms pauses, and the output-file size check in the exit handler are not modelled. They are timing, signals and file-system reads.
- Recording.FirstSuccessfulScan: the 200 ms pause between retries (line 282) is not modelled. A release timer that fires during the pause could free a port for the next scan; in the model every retry sees the same table, and only the probe's answers change.
- The exit handler itself is only an event: it calls `RecordingRegistry.Cleanup` once.
- Recording.RecordingRegistry.Cleanup: modelled for the exit handler's call while the recording is registered. A second call through the returned `cleanup` is not modelled. Neither are closing the plain transport and deleting the SDP file, which are engine and file-system effects.
- Concurrency at the awaits is not modelled. Each setup, release and timer firing is one atomic step, apart from the scan interleaving shown in Findings. So two concurrent setups for the same producer, which both pass the existence test at line 255 before either reaches line 439, are outside the model.
- Text.ToLower: lower-cases ASCII letters only. JavaScript's Unicode case mapping is not modelled.
- Text.IntToString: writes plain decimal digits. JavaScript's exponent form for numbers of 1e21 or more, and fractional numbers, are not modelled.
- Recording.PathJoin: concatenates with `/`. The normalisation that `path.join` and `path.resolve` perform is not modelled.
- Media: the `RtpParameters` fields other than `codecs`, and every mediasoup object field the code does not read, are left out.
- Recording.PrepareRecording: an empty producer codec list is modelled as one error, `CodecWithoutMimeType`. In the source the copy's first codec then holds only a payload type, and reading its MIME type throws.

## Findings

| source | as written | input that shows it | evidently intended | confidence | as-written member | corrected member |
|---|---|---|---|---|---|---|
| server/src/lib/recordingForProducer.ts:67-81 | the in-use test (line 70) and the reservation (line 75) are separated by `await isPortAvailable(port)` (line 73), so another setup's scan can pass the same in-use test before the first reserves the port | two setups for different producers on an empty table; the second scan reaches port 50000 before the first probe of 50000 resolves, and both probes accept | scan-and-reserve as one atomic step, so that ports handed out before any release timer fires are pairwise distinct (`PortAllocation.HandedOutDistinct`) | not executed | ScanSteps.InterleavedScansShareAPort | PortAllocation.PortTable.FindAvailablePort |
