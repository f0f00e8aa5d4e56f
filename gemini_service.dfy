/** The pure and index-arithmetic parts of services/geminiService.ts: the PCM codecs that move
    audio between byte arrays and Base64 text, the de-interleaving of 16-bit samples into
    channels, the classification of API errors, the data URL given to a scanned image and the
    intensity asked of a generated workout. The calls to the generative service are not modelled. */
module GeminiService {
  import opened Types
  import opened Base64

  // ---------------------------------------------------------------- PCM codecs

  /** `encodePCM`: a binary string with one character per byte, then `btoa`. */
  method EncodePCM(bytes: array<byte>) returns (s: string)
    ensures BtoA(Latin1(bytes[..])) == Ok(s)
    ensures s == Encode(bytes[..])
  {
    var binary := "";
    var i := 0;
    while i < bytes.Length
      invariant 0 <= i <= bytes.Length
      invariant |binary| == i
      invariant forall k :: 0 <= k < i ==> binary[k] as int == bytes[k] as int
    {
      binary := binary + [bytes[i] as int as char];
      i := i + 1;
    }
    assert binary == Latin1(bytes[..]);
    CharCodesLatin1(bytes[..]);
    s := BtoA(binary).value;
  }

  /** `decodePCM`: `atob`, then a fresh `Uint8Array` filled with the character codes. It throws
      exactly when `atob` does. */
  method DecodePCM(base64: string) returns (r: Result<array<byte>>)
    ensures r.Err? <==> Decode(base64).None?
    ensures r.Err? ==> r.error == InvalidCharacterError
    ensures r.Ok? ==> fresh(r.value) && r.value[..] == Decode(base64).value
  {
    var decoded := AtoB(base64);
    if decoded.Err? {
      return Err(decoded.error);
    }
    var binaryString := decoded.value;
    var len := |binaryString|;
    var bytes := new byte[len];
    var i := 0;
    while i < len
      invariant 0 <= i <= len
      invariant forall k :: 0 <= k < i ==> bytes[k] as int == binaryString[k] as int
    {
      bytes[i] := binaryString[i] as int as byte;
      i := i + 1;
    }
    assert bytes[..] == Decode(base64).value;
    r := Ok(bytes);
  }

  /** The round trip `decodePCM(encodePCM(b))` returns the bytes `b`. */
  method PCMRoundTrip(bytes: array<byte>) returns (back: array<byte>)
    ensures fresh(back) && back[..] == bytes[..]
  {
    var text := EncodePCM(bytes);
    DecodeEncode(bytes[..]);
    var r := DecodePCM(text);
    back := r.value;
  }

  // ---------------------------------------------------------------- decodeAudioData

  /** The signed 16-bit little-endian value of two bytes, as an `Int16Array` element reads it. */
  function Int16(lo: byte, hi: byte): (v: int)
    ensures -32768 <= v < 32768
  {
    var u := lo as int + 256 * hi as int;
    if u >= 32768 then u - 65536 else u
  }

  /** The 16-bit samples viewed over a byte buffer of even length. */
  function Samples(data: seq<byte>): (s: seq<int>)
    requires |data| % 2 == 0
    ensures |s| == |data| / 2
  {
    seq(|data| / 2, k requires 0 <= k < |data| / 2 => Int16(data[2 * k], data[2 * k + 1]))
  }

  /** The interleaved sample index read for channel `c` of frame `i`. */
  function SampleIndex(i: nat, c: nat, numChannels: nat): nat
  {
    i * numChannels + c
  }

  /** Every index the de-interleaving loop reads lies inside the sample buffer. */
  lemma SampleIndexInBounds(i: nat, c: nat, numChannels: nat, sampleCount: nat)
    requires c < numChannels && i < sampleCount / numChannels
    ensures SampleIndex(i, c, numChannels) < sampleCount
  {
    var f := sampleCount / numChannels;
    assert i + 1 <= f;
    assert (i + 1) * numChannels <= f * numChannels by {
      MulMonotone(i + 1, f, numChannels);
    }
    assert f * numChannels <= sampleCount;
  }

  lemma MulMonotone(a: nat, b: nat, n: nat)
    requires a <= b
    ensures a * n <= b * n
  {
  }

  /** Every sample of a whole number of frames is read exactly once: sample `k` is channel
      `k % numChannels` of frame `k / numChannels`, and no other pair reads it. */
  lemma {:induction false} SampleIndexBijective(k: nat, numChannels: nat)
    requires numChannels > 0
    ensures SampleIndex(k / numChannels, k % numChannels, numChannels) == k
    ensures forall i: nat, c: nat :: c < numChannels && SampleIndex(i, c, numChannels) == k ==>
              i == k / numChannels && c == k % numChannels
  {
    forall i: nat, c: nat | c < numChannels && SampleIndex(i, c, numChannels) == k
      ensures i == k / numChannels && c == k % numChannels
    {
      DivModUnique(k, numChannels, i, c);
    }
  }

  lemma DivModUnique(k: nat, n: nat, q: nat, r: nat)
    requires 0 <= r < n && k == q * n + r
    ensures q == k / n && r == k % n
  {
    var q', r' := k / n, k % n;
    assert k == q' * n + r';
    if q < q' {
      MulMonotone(q + 1, q', n);
    } else if q' < q {
      MulMonotone(q' + 1, q, n);
    }
  }

  /** The largest channel count `createBuffer` accepts (Web Audio API). */
  const MaxChannels := 32

  /** A 16-bit sample as the float in [-1, 1) the channel buffer stores; the quotient is exact
      in single precision, so no rounding is lost by modelling it as a real. */
  function Scaled(sample: int): real
  {
    sample as real / 32768.0
  }

  /** Whether `createBuffer(numChannels, frameCount, sampleRate)` accepts its arguments. */
  predicate BufferAccepted(numChannels: int, frameCount: int, sampleRate: int)
  {
    1 <= numChannels <= MaxChannels && frameCount >= 1 && 3000 <= sampleRate <= 768000
  }

  /** `decodeAudioData`: views the bytes as 16-bit samples and de-interleaves them into
      `numChannels` channels of `frameCount` frames, each sample scaled by 1/32768.
      `new Int16Array` throws `RangeError` on an odd byte count; `createBuffer` throws
      `NotSupportedError` for no channels, more than 32, an empty buffer or a sample rate
      outside 3000..768000 Hz. Row `c` of the result is channel `c`. */
  method DecodeAudioData(data: array<byte>, sampleRate: int, numChannels: int) returns (r: Result<array2<real>>)
    ensures data.Length % 2 != 0 ==> r == Err(RangeError)
    ensures data.Length % 2 == 0 && numChannels >= 1 ==>
      (r.Ok? <==> BufferAccepted(numChannels, data.Length / 2 / numChannels, sampleRate))
    ensures numChannels < 1 ==> r.Err?
    ensures r.Err? ==> r.error in {RangeError, NotSupportedError}
    ensures r.Ok? ==>
      var samples := Samples(data[..]);
      && fresh(r.value)
      && r.value.Length0 == numChannels >= 1
      && r.value.Length1 == |samples| / numChannels
      && forall c, i :: 0 <= c < r.value.Length0 && 0 <= i < r.value.Length1 ==>
           SampleIndex(i, c, numChannels) < |samples| &&
           r.value[c, i] == Scaled(samples[SampleIndex(i, c, numChannels)])
  {
    if data.Length % 2 != 0 {
      return Err(RangeError);
    }
    var dataInt16 := Samples(data[..]);
    if numChannels < 1 {
      return Err(NotSupportedError);
    }
    var frameCount := |dataInt16| / numChannels;
    if !BufferAccepted(numChannels, frameCount, sampleRate) {
      return Err(NotSupportedError);
    }
    var buffer := new real[numChannels, frameCount];
    var channel := 0;
    while channel < numChannels
      invariant 0 <= channel <= numChannels
      invariant forall c, i :: 0 <= c < channel && 0 <= i < frameCount ==>
                  SampleIndex(i, c, numChannels) < |dataInt16| &&
                  buffer[c, i] == Scaled(dataInt16[SampleIndex(i, c, numChannels)])
    {
      FillChannel(buffer, channel, dataInt16, numChannels);
      channel := channel + 1;
    }
    r := Ok(buffer);
  }

  /** The inner loop of `decodeAudioData`: frame `i` of channel `channel` reads sample
      `i * numChannels + channel`; the other channels are left as they were. */
  method FillChannel(buffer: array2<real>, channel: nat, samples: seq<int>, numChannels: nat)
    requires channel < numChannels == buffer.Length0
    requires buffer.Length1 == |samples| / numChannels
    modifies buffer
    ensures forall i :: 0 <= i < buffer.Length1 ==>
              SampleIndex(i, channel, numChannels) < |samples| &&
              buffer[channel, i] == Scaled(samples[SampleIndex(i, channel, numChannels)])
    ensures forall c, i :: 0 <= c < buffer.Length0 && c != channel && 0 <= i < buffer.Length1 ==>
              buffer[c, i] == old(buffer[c, i])
  {
    var frameCount := buffer.Length1;
    var i := 0;
    while i < frameCount
      invariant 0 <= i <= frameCount
      invariant forall j :: 0 <= j < i ==>
                  SampleIndex(j, channel, numChannels) < |samples| &&
                  buffer[channel, j] == Scaled(samples[SampleIndex(j, channel, numChannels)])
      invariant forall c, j :: 0 <= c < buffer.Length0 && c != channel && 0 <= j < frameCount ==>
                  buffer[c, j] == old(buffer[c, j])
    {
      SampleIndexInBounds(i, channel, numChannels, |samples|);
      buffer[channel, i] := Scaled(samples[SampleIndex(i, channel, numChannels)]);
      i := i + 1;
    }
  }

  // ---------------------------------------------------------------- handleApiError

  /** `s.includes(p)`, computed by trying each position in turn. */
  function Includes(s: string, p: string): bool
    decreases |s|
  {
    p <= s || (|s| > 0 && Includes(s[1..], p))
  }

  /** `p` occurs in `s` at position `i`. */
  predicate OccursAt(s: string, p: string, i: int)
  {
    0 <= i && i + |p| <= |s| && s[i..i + |p|] == p
  }

  lemma {:induction false} IncludesIffOccurs(s: string, p: string)
    ensures Includes(s, p) <==> exists i :: OccursAt(s, p, i)
    decreases |s|
  {
    if p <= s {
      assert OccursAt(s, p, 0);
    } else if |s| == 0 {
      assert forall i :: !OccursAt(s, p, i);
    } else {
      IncludesIffOccurs(s[1..], p);
      if exists i :: OccursAt(s[1..], p, i) {
        var i :| OccursAt(s[1..], p, i);
        assert s[i + 1..i + 1 + |p|] == s[1..][i..i + |p|];
        assert OccursAt(s, p, i + 1);
      }
      if exists i :: OccursAt(s, p, i) {
        var i :| OccursAt(s, p, i);
        assert i != 0;
        assert s[1..][i - 1..i - 1 + |p|] == s[i..i + |p|];
        assert OccursAt(s[1..], p, i - 1);
      }
    }
  }

  /** A thrown value: its `message` if it has one, and its JSON serialisation otherwise. */
  datatype ApiError = ApiError(message: Option<string>, json: string)

  const EntityNotFound := "Requested entity was not found"
  const NotFoundCode := "NOT_FOUND"

  /** `err?.message || JSON.stringify(err)`. */
  function ErrorMessage(err: ApiError): string
  {
    StringOr(err.message, err.json)
  }

  /** What `handleApiError` does: whether it opened the API-key selector, and what it threw. */
  datatype ApiErrorHandling = ApiErrorHandling(openedKeySelector: bool, thrown: ApiError)

  /** `handleApiError`: rethrows the error unchanged, after opening the key selector (when the
      host page offers one) exactly when the message mentions a missing entity. */
  function HandleApiError(err: ApiError, keySelectorAvailable: bool): (h: ApiErrorHandling)
    ensures h.thrown == err
    ensures h.openedKeySelector <==>
      keySelectorAvailable &&
      ((exists i :: OccursAt(ErrorMessage(err), EntityNotFound, i)) ||
       (exists i :: OccursAt(ErrorMessage(err), NotFoundCode, i)))
  {
    var msg := ErrorMessage(err);
    IncludesIffOccurs(msg, EntityNotFound);
    IncludesIffOccurs(msg, NotFoundCode);
    ApiErrorHandling(keySelectorAvailable && (Includes(msg, EntityNotFound) || Includes(msg, NotFoundCode)), err)
  }

  // ---------------------------------------------------------------- analyzeFoodImage, generateWorkout

  const JpegDataUrlPrefix := "data:image/jpeg;base64,"

  /** `analyzeFoodImage` returns the parsed analysis with `scanned_image` set to a JPEG data URL
      around the Base64 image it was given. */
  function WithScannedImage(analysis: NutritionData, base64Image: string): (r: NutritionData)
    ensures r.scanned_image.Some?
    ensures JpegDataUrlPrefix <= r.scanned_image.value
    ensures r.scanned_image.value[|JpegDataUrlPrefix|..] == base64Image
    ensures r.(scanned_image := analysis.scanned_image) == analysis
  {
    analysis.(scanned_image := Some(JpegDataUrlPrefix + base64Image))
  }

  /** The intensity `generateWorkout` asks for, given the calories remaining today. */
  function WorkoutIntensity(remainingCalories: int): (intensity: string)
  {
    if remainingCalories > 500 then "high intensity" else "light"
  }

  /** High intensity is asked for exactly above 500 remaining calories, and more remaining
      calories never lower the intensity. */
  lemma WorkoutIntensityThreshold(remaining: int, more: int)
    requires remaining <= more
    ensures WorkoutIntensity(remaining) == "high intensity" <==> remaining > 500
    ensures WorkoutIntensity(remaining) == "light" <==> remaining <= 500
    ensures WorkoutIntensity(remaining) == "high intensity" ==> WorkoutIntensity(more) == "high intensity"
  {
  }
}
