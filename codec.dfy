/** The codec descriptor of `getCodecInfoFromRtpParameters`: which codec of a
    parameter set describes a media kind, and the four numbers and the name a
    session description needs from it. */
module Codec {
  import opened Wrappers
  import opened Text
  import opened Media

  datatype CodecInfo = CodecInfo(payloadType: int, codecName: string, clockRate: int, channels: int)

  datatype CodecError =
    /** `No ${kind} codec found` */
    | NoCodecFound(kind: MediaKind)
    /** the selected codec's `mimeType` has no `/`, so `split('/')[1]` is
        undefined and calling `toLowerCase` on it throws a TypeError */
    | MimeTypeWithoutSubtype(mimeType: string)

  /** The name a kind is searched for by, and is reported by in errors. */
  function KindName(kind: MediaKind): string {
    match kind
    case Audio => "audio"
    case Video => "video"
  }

  function ErrorMessage(e: CodecError): string {
    match e
    case NoCodecFound(kind) => "No " + KindName(kind) + " codec found"
    case MimeTypeWithoutSubtype(_) => "Cannot read properties of undefined (reading 'toLowerCase')"
  }

  /** The texts of the two codec errors a setup can catch. */
  lemma NoCodecFoundMessages()
    ensures ErrorMessage(NoCodecFound(Audio)) == "No audio codec found"
    ensures ErrorMessage(NoCodecFound(Video)) == "No video codec found"
  {
  }

  /** The search predicate of the `find`: the lower-cased MIME type mentions the kind. */
  predicate OfKind(kind: MediaKind, c: RtpCodec) {
    Contains(ToLower(c.mimeType), KindName(kind))
  }

  /** `codecs[i]` is the codec `find` stops at: the first one of the kind. */
  predicate IsFirstOfKind(kind: MediaKind, codecs: seq<RtpCodec>, i: int) {
    0 <= i < |codecs| && OfKind(kind, codecs[i]) &&
    forall j :: 0 <= j < i ==> !OfKind(kind, codecs[j])
  }

  /** The index of the codec `codecs.find(...)` returns, if any. */
  function FindFirstOfKind(kind: MediaKind, codecs: seq<RtpCodec>): (r: Option<nat>)
    ensures r.Some? ==> IsFirstOfKind(kind, codecs, r.value)
    ensures r.None? ==> forall j :: 0 <= j < |codecs| ==> !OfKind(kind, codecs[j])
    decreases |codecs|
  {
    if |codecs| == 0 then None
    else if OfKind(kind, codecs[0]) then Some(0)
    else
      match FindFirstOfKind(kind, codecs[1..])
      case None => None
      case Some(i) => Some(i + 1)
  }

  /** At most one index is the first of a kind. */
  lemma FirstOfKindUnique(kind: MediaKind, codecs: seq<RtpCodec>, i: int, j: int)
    requires IsFirstOfKind(kind, codecs, i) && IsFirstOfKind(kind, codecs, j)
    ensures i == j
  {
  }

  /** `codec.channels || 2` for audio; video descriptors keep the initial 0. */
  function ChannelCount(kind: MediaKind, c: RtpCodec): int {
    if kind == Audio then
      if c.channels.None? || c.channels.value == 0 then 2 else c.channels.value
    else 0
  }

  /** The fields copied out of the selected codec. */
  function Describe(kind: MediaKind, c: RtpCodec): Result<CodecInfo, CodecError> {
    var parts := Split(c.mimeType, '/');
    if |parts| < 2 then Failure(MimeTypeWithoutSubtype(c.mimeType))
    else Success(CodecInfo(c.payloadType, ToLower(parts[1]), c.clockRate, ChannelCount(kind, c)))
  }

  /** `getCodecInfoFromRtpParameters(kind, rtpParameters)`: the descriptor of the
      first codec of the kind, and "no codec found" exactly when there is none. */
  function GetCodecInfoFromRtpParameters(kind: MediaKind, params: RtpParameters): (r: Result<CodecInfo, CodecError>)
    ensures r == Failure(NoCodecFound(kind)) <==>
            forall j :: 0 <= j < |params.codecs| ==> !OfKind(kind, params.codecs[j])
    ensures forall i :: IsFirstOfKind(kind, params.codecs, i) ==> r == Describe(kind, params.codecs[i])
  {
    match FindFirstOfKind(kind, params.codecs)
    case None => Failure(NoCodecFound(kind))
    case Some(i) => Describe(kind, params.codecs[i])
  }

  /** What the descriptor of the selected codec holds: its payload type and
      clock rate unchanged, the lower-cased subtype of its MIME type as the
      name, and the channel rule (given, or 2 when absent or 0, for audio;
      0 for video). Without a `/` in the MIME type the call throws. */
  lemma {:induction false} SelectedCodecInfo(kind: MediaKind, params: RtpParameters, i: int)
    requires IsFirstOfKind(kind, params.codecs, i)
    ensures var c := params.codecs[i];
            var r := GetCodecInfoFromRtpParameters(kind, params);
            && (r.Success? <==> '/' in c.mimeType)
            && (r.Failure? ==> r.error == MimeTypeWithoutSubtype(c.mimeType))
            && (r.Success? ==>
                  && r.value.payloadType == c.payloadType
                  && r.value.clockRate == c.clockRate
                  && r.value.codecName == ToLower(Split(c.mimeType, '/')[1])
                  && '/' !in r.value.codecName
                  && (kind == Video ==> r.value.channels == 0)
                  && (kind == Audio && (c.channels == None || c.channels == Some(0)) ==> r.value.channels == 2)
                  && (kind == Audio && c.channels.Some? && c.channels.value != 0 ==> r.value.channels == c.channels.value))
  {
    var c := params.codecs[i];
    var parts := Split(c.mimeType, '/');
    if |parts| == 1 {
      assert Join(parts, '/') == parts[0];
    } else {
      ToLowerKeepsNonLetters(parts[1], '/');
    }
  }
}
