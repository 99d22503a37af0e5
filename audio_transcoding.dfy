/** The request side of the audio transcoding resource
    (AudioTranscodingResource.cpp): reading an output format from its
    integer code, mapping it to the transcoder's format, validating the
    query parameters of a transcoding request and building the URL that
    requests a track.

    The numeric codes of `TranscodingOutputFormat`, the allowed bitrates and
    the track table are not part of this model; they come in as parameters. */
module AudioTranscoding {
  import opened Wrappers

  type TrackId = nat
  type Bitrate = nat

  datatype Format = MP3 | OggOpus | MatroskaOpus | OggVorbis | WebmVorbis
  datatype AvFormat = AvMP3 | AvOggOpus | AvMatroskaOpus | AvOggVorbis | AvWebmVorbis

  /** The numeric codes the formats are stored and sent as: distinct. */
  predicate CodesDistinct(code: Format -> int) {
    forall f, g :: code(f) == code(g) ==> f == g
  }

  // ---- decimal integers ----

  predicate IsDigit(c: char) { '0' <= c <= '9' }

  function DigitValue(c: char): nat
    requires IsDigit(c)
  {
    (c - '0') as nat
  }

  function DigitChar(d: nat): (c: char)
    requires d < 10
    ensures IsDigit(c) && DigitValue(c) == d
  {
    ('0' as int + d) as char
  }

  function DigitsValue(s: string): nat
    requires forall i :: 0 <= i < |s| ==> IsDigit(s[i])
  {
    if |s| == 0 then 0 else DigitsValue(s[..|s| - 1]) * 10 + DigitValue(s[|s| - 1])
  }

  /** An unsigned decimal: one or more digits and nothing else. */
  function ParseNat(s: string): (r: Option<nat>)
    ensures r.Some? <==> |s| > 0 && forall i :: 0 <= i < |s| ==> IsDigit(s[i])
  {
    if |s| > 0 && forall i :: 0 <= i < |s| ==> IsDigit(s[i]) then Some(DigitsValue(s)) else None
  }

  /** A signed decimal: an optional minus sign, then an unsigned decimal. */
  function ParseInt(s: string): (r: Option<int>)
    ensures ParseNat(s).Some? ==> r == Some(ParseNat(s).value as int)
    ensures r.Some? && r.value < 0 ==> |s| > 1 && s[0] == '-'
  {
    if |s| > 0 && s[0] == '-' then
      match ParseNat(s[1..])
      case None => None
      case Some(n) => Some(-(n as int))
    else
      match ParseNat(s)
      case None => None
      case Some(n) => Some(n as int)
  }

  /** A minus sign in front of a written number negates it. */
  lemma ParseIntNegative(n: nat)
    ensures ParseInt(NatToString(n)) == Some(n as int)
    ensures ParseInt("-" + NatToString(n)) == Some(-(n as int))
  {
    NatToStringRoundTrip(n);
    assert ("-" + NatToString(n))[1..] == NatToString(n);
  }

  /** The decimal spelling of `n`, as `toString()` writes an id. */
  function NatToString(n: nat): (r: string)
    ensures |r| > 0 && forall i :: 0 <= i < |r| ==> IsDigit(r[i])
  {
    if n < 10 then [DigitChar(n)] else NatToString(n / 10) + [DigitChar(n % 10)]
  }

  /** Reading back a written number gives the number. */
  lemma {:induction false} NatToStringRoundTrip(n: nat)
    ensures DigitsValue(NatToString(n)) == n
    ensures ParseNat(NatToString(n)) == Some(n)
  {
    var s := NatToString(n);
    if n >= 10 {
      NatToStringRoundTrip(n / 10);
      assert s[..|s| - 1] == NatToString(n / 10);
    } else {
      assert s[..0] == [];
    }
  }

  // ---- formats ----

  /** `readAs<TranscodingOutputFormat>`: the format whose code the string
      spells, none when it is not an integer or no format has that code. */
  function ReadFormat(s: string, code: Format -> int): (r: Option<Format>)
    ensures ParseInt(s).None? ==> r.None?
    ensures r.Some? ==> ParseInt(s) == Some(code(r.value))
  {
    match ParseInt(s)
    case None => None
    case Some(n) =>
      if n == code(MP3) then Some(MP3)
      else if n == code(OggOpus) then Some(OggOpus)
      else if n == code(MatroskaOpus) then Some(MatroskaOpus)
      else if n == code(OggVorbis) then Some(OggVorbis)
      else if n == code(WebmVorbis) then Some(WebmVorbis)
      else None
  }

  /** A string reads as a format exactly when it spells that format's
      code. */
  lemma ReadFormatIff(s: string, code: Format -> int, f: Format)
    requires CodesDistinct(code)
    ensures ReadFormat(s, code) == Some(f) <==> ParseInt(s) == Some(code(f))
  {
  }

  /** An integer that is no format's code reads as nothing. */
  lemma ReadFormatUnknownCode(s: string, code: Format -> int, n: int)
    requires ParseInt(s) == Some(n)
    requires forall f :: code(f) != n
    ensures ReadFormat(s, code) == None
  {
  }

  /** `AudioFormatToAvFormat`: each format to the transcoder's format of the
      same name. */
  function AvFormatOf(f: Format): (r: Option<AvFormat>)
    ensures r.Some?
  {
    match f
    case MP3 => Some(AvMP3)
    case OggOpus => Some(AvOggOpus)
    case MatroskaOpus => Some(AvMatroskaOpus)
    case OggVorbis => Some(AvOggVorbis)
    case WebmVorbis => Some(AvWebmVorbis)
  }

  /** Different formats never map to the same transcoder format. */
  lemma AvFormatOfInjective(f: Format, g: Format)
    requires AvFormatOf(f) == AvFormatOf(g)
    ensures f == g
  {
  }

  // ---- requests ----

  datatype TrackInfo = TrackInfo(path: string, durationMs: nat)
  datatype InputParameters = InputParameters(trackPath: string, durationMs: nat)
  datatype OutputParameters = OutputParameters(stripMetadata: bool, format: AvFormat, bitrate: Bitrate, offsetSeconds: nat)
  datatype TranscodingParameters = TranscodingParameters(input: InputParameters, output: OutputParameters)

  /** `readParameterAs` of an unsigned integer: none when the parameter is
      missing or not a number. */
  function NatParameter(request: map<string, string>, name: string): Option<nat> {
    if name in request then ParseNat(request[name]) else None
  }

  function FormatParameter(request: map<string, string>, code: Format -> int): Option<Format> {
    if "format" in request then ReadFormat(request["format"], code) else None
  }

  /** `readTranscodingParameters`: the track, format and bitrate are
      mandatory, the bitrate must be allowed and the track must exist; the
      offset is optional and reads as 0 when absent or malformed. */
  method ReadTranscodingParameters(request: map<string, string>, code: Format -> int,
                                   allowedBitrates: set<Bitrate>, tracks: map<TrackId, TrackInfo>)
    returns (r: Option<TranscodingParameters>)
    ensures r.None? <==>
      || NatParameter(request, "trackid").None?
      || FormatParameter(request, code).None?
      || NatParameter(request, "bitrate").None?
      || NatParameter(request, "bitrate").value !in allowedBitrates
      || NatParameter(request, "trackid").value !in tracks
    ensures r.Some? ==>
      var track := tracks[NatParameter(request, "trackid").value];
      && r.value.input == InputParameters(track.path, track.durationMs)
      && r.value.output.stripMetadata
      && Some(r.value.output.format) == AvFormatOf(FormatParameter(request, code).value)
      && r.value.output.bitrate == NatParameter(request, "bitrate").value
      && r.value.output.offsetSeconds == NatParameter(request, "offset").GetOr(0)
  {
    var trackId := NatParameter(request, "trackid");
    var format := FormatParameter(request, code);
    var bitrate := NatParameter(request, "bitrate");
    if trackId.None? || format.None? || bitrate.None? {
      return None;
    }
    if bitrate.value !in allowedBitrates {
      return None;
    }
    var avFormat := AvFormatOf(format.value);
    var offset := NatParameter(request, "offset").GetOr(0);
    if trackId.value !in tracks {
      return None;
    }
    var track := tracks[trackId.value];
    var input := InputParameters(track.path, track.durationMs);
    var output := OutputParameters(true, avFormat.value, bitrate.value, offset);
    r := Some(TranscodingParameters(input, output));
  }

  /** `getUrl(trackId)`: the resource URL with the track id appended. */
  function GetUrl(url: string, trackId: TrackId): (r: string)
    ensures |r| > |url| + |"&trackid="|
    ensures r[..|url|] == url && r[|url|..|url| + |"&trackid="|] == "&trackid="
  {
    url + "&trackid=" + NatToString(trackId)
  }

  /** The track id reads back from the URL built for it. */
  lemma GetUrlRoundTrip(url: string, trackId: TrackId)
    ensures ParseNat(GetUrl(url, trackId)[|url| + |"&trackid="|..]) == Some(trackId)
  {
    assert GetUrl(url, trackId)[|url| + |"&trackid="|..] == NatToString(trackId);
    NatToStringRoundTrip(trackId);
  }

  /** Different tracks get different URLs. */
  lemma GetUrlInjective(url: string, a: TrackId, b: TrackId)
    requires GetUrl(url, a) == GetUrl(url, b)
    ensures a == b
  {
    GetUrlRoundTrip(url, a);
    GetUrlRoundTrip(url, b);
  }
}
