/**
 * The adaptive image compressor (`ImageCompressionService`).
 *
 * The `sharp` codec is an oracle: `probe` reads an image's metadata and `encode` performs
 * one re-encode request; either returns `None` when the library throws. Every encode
 * request the compressor issues is reported in order, so that the quality schedule, the
 * single resize and "always from the original bytes" can be stated about the run.
 */
module Compression {
  import opened Base
  import opened Text

  const SizeThreshold: nat := 40 * 1024 * 1024
  const TargetSize: nat := 10 * 1024 * 1024
  const InitialQuality: nat := 80
  const QualityStep: nat := 10
  const QualityFloor: nat := 30
  const ResizeQuality: nat := 75
  const DefaultWidth: nat := 1920
  const DefaultHeight: nat := 1080
  /** One initial encode, at most five quality steps (80 down to 30) and one resize. */
  const MaxAttempts: nat := 7

  datatype Format = Jpeg | WebP

  /** What `sharp(...).metadata()` reports; either dimension may be missing. */
  datatype ImageInfo = ImageInfo(width: Option<nat>, height: Option<nat>)

  /**
   * A resize before re-encoding: the base dimensions (metadata or the 1920x1080 fallback) and
   * the size of the buffer the scale factor `sqrt(TargetSize / fromSize)` is computed from.
   * The floating-point scaling itself is left to the codec.
   */
  datatype Resize = Resize(width: nat, height: nat, fromSize: nat)

  /** One call to the encoder. */
  datatype Request = Request(source: Bytes, format: Format, quality: nat, resize: Option<Resize>)

  datatype Codec = Codec(probe: Bytes -> Option<ImageInfo>, encode: Request -> Option<Bytes>)

  /** An `ImageCompressionService`: it holds nothing but the codec library it calls. */
  class ImageCompressionService {
    const codec: Codec

    constructor (codec: Codec)
      ensures this.codec == codec
    {
      this.codec := codec;
    }
  }

  datatype CompressionResult = CompressionResult(data: Bytes, originalSize: nat, compressedSize: nat, wasCompressed: bool)

  /** A compression result with the encoder requests made to obtain it. */
  datatype Run = Run(result: CompressionResult, attempts: seq<Request>)

  datatype SourceImage = SourceImage(data: Bytes, mimeType: string, name: string)

  datatype NamedResult = NamedResult(name: string, result: CompressionResult)

  /** The result returned when the input is left as it is (under threshold or after a failure). */
  function Unchanged(image: Bytes): (r: CompressionResult)
    ensures r.data == image && !r.wasCompressed
    ensures r.originalSize == r.compressedSize == |image|
  {
    CompressionResult(image, |image|, |image|, false)
  }

  /** Output format: WebP stays WebP; PNG and every other type are re-encoded as JPEG. */
  function OutputFormat(mimeType: string): (f: Format)
    ensures f == WebP <==> Contains(mimeType, "webp")
  {
    var isPng := Contains(mimeType, "png");
    var isWebP := Contains(mimeType, "webp");
    if isWebP then WebP else if isPng then Jpeg else Jpeg
  }

  /** `metadata.width || 1920`: a missing or zero dimension falls back to the default. */
  function BaseDimension(d: Option<nat>, fallback: nat): (r: nat)
    ensures fallback > 0 ==> r > 0
    ensures d.Some? && d.value > 0 ==> r == d.value
  {
    if d.Some? && d.value != 0 then d.value else fallback
  }

  function Last<T>(s: seq<T>): T
    requires |s| > 0
  {
    s[|s| - 1]
  }

  /** What the quality loop leaves behind: the buffer (`None` if an encode threw), the quality and the requests. */
  datatype LoopRun = LoopRun(output: Option<Bytes>, quality: nat, attempts: seq<Request>)

  /**
   * The quality loop: while the current buffer exceeds the target and quality is above the
   * floor, lower the quality by one step and re-encode the original `source`.
   */
  function QualityLoop(source: Bytes, format: Format, codec: Codec, quality: nat, current: Bytes): (r: LoopRun)
    decreases quality
    ensures r.output.Some? && |r.output.value| > TargetSize ==> r.quality <= QualityFloor
  {
    if |current| > TargetSize && quality > QualityFloor then
      var q := quality - QualityStep;
      var attempt := Request(source, format, q, None);
      match codec.encode(attempt)
      case None => LoopRun(None, q, [attempt])
      case Some(next) =>
        var rest := QualityLoop(source, format, codec, q, next);
        LoopRun(rest.output, rest.quality, [attempt] + rest.attempts)
    else
      LoopRun(Some(current), quality, [])
  }

  /**
   * The quality loop walks the 10-step grid: it stops at the floor at the latest, and its i-th
   * request re-encodes `source` one step lower than the previous one.
   */
  lemma {:induction false} QualityLoopSteps(source: Bytes, format: Format, codec: Codec, quality: nat, current: Bytes)
    requires QualityFloor <= quality && quality % QualityStep == 0
    decreases quality
    ensures var run := QualityLoop(source, format, codec, quality, current);
      && QualityFloor <= run.quality <= quality && run.quality % QualityStep == 0
      && |run.attempts| * QualityStep == quality - run.quality
      && (forall i | 0 <= i < |run.attempts| ::
            run.attempts[i] == Request(source, format, quality - QualityStep * (i + 1), None))
  {
    if |current| > TargetSize && quality > QualityFloor {
      var q := quality - QualityStep;
      var attempt := Request(source, format, q, None);
      if codec.encode(attempt).Some? {
        var next := codec.encode(attempt).value;
        QualityLoopSteps(source, format, codec, q, next);
        var rest := QualityLoop(source, format, codec, q, next);
        var attempts := [attempt] + rest.attempts;
        assert forall i | 1 <= i < |attempts| :: attempts[i] == rest.attempts[i - 1];
      }
    }
  }

  /**
   * The quality loop continued past a request only when that request's output was still over
   * the target, and its output is that of its last request.
   */
  lemma {:induction false} QualityLoopOutputs(source: Bytes, format: Format, codec: Codec, quality: nat, current: Bytes)
    decreases quality
    ensures var run := QualityLoop(source, format, codec, quality, current);
      && (|run.attempts| == 0 ==> run.output == Some(current))
      && (|run.attempts| > 0 ==> |current| > TargetSize && codec.encode(Last(run.attempts)) == run.output)
      && (forall i | 0 <= i < |run.attempts| - 1 ::
            codec.encode(run.attempts[i]).Some? && |codec.encode(run.attempts[i]).value| > TargetSize)
  {
    if |current| > TargetSize && quality > QualityFloor {
      var q := quality - QualityStep;
      var attempt := Request(source, format, q, None);
      if codec.encode(attempt).Some? {
        var next := codec.encode(attempt).value;
        QualityLoopOutputs(source, format, codec, q, next);
        var rest := QualityLoop(source, format, codec, q, next);
        var attempts := [attempt] + rest.attempts;
        assert QualityLoop(source, format, codec, quality, current) == LoopRun(rest.output, rest.quality, attempts);
        assert forall i | 1 <= i < |attempts| :: attempts[i] == rest.attempts[i - 1];
        if |rest.attempts| > 0 {
          assert Last(attempts) == Last(rest.attempts);
        }
      }
    }
  }

  /** Both halves of what the quality loop guarantees from a quality on the grid. */
  lemma QualityLoopShape(source: Bytes, format: Format, codec: Codec, quality: nat, current: Bytes)
    requires QualityFloor <= quality && quality % QualityStep == 0
    ensures var run := QualityLoop(source, format, codec, quality, current);
      && QualityFloor <= run.quality <= quality && run.quality % QualityStep == 0
      && |run.attempts| * QualityStep == quality - run.quality
      && (forall i | 0 <= i < |run.attempts| ::
            run.attempts[i] == Request(source, format, quality - QualityStep * (i + 1), None))
      && (|run.attempts| == 0 ==> run.output == Some(current))
      && (|run.attempts| > 0 ==> |current| > TargetSize && codec.encode(Last(run.attempts)) == run.output)
      && (forall i | 0 <= i < |run.attempts| - 1 ::
            codec.encode(run.attempts[i]).Some? && |codec.encode(run.attempts[i]).value| > TargetSize)
      && (run.output.Some? ==> |run.output.value| <= TargetSize || run.quality == QualityFloor)
  {
    QualityLoopSteps(source, format, codec, quality, current);
    QualityLoopOutputs(source, format, codec, quality, current);
  }

  /**
   * `compressImage`: the whole policy, including the catch-all fallback to the input. An input
   * of at most 40 MiB comes back byte-identical, unmeasured by the codec.
   */
  function Compress(image: Bytes, mimeType: string, codec: Codec): (r: Run)
    ensures |image| <= SizeThreshold ==> r == Run(Unchanged(image), [])
  {
    if |image| <= SizeThreshold then Run(Unchanged(image), [])
    else
      match codec.probe(image)
      case None => Run(Unchanged(image), [])
      case Some(info) =>
        var format := OutputFormat(mimeType);
        var first := Request(image, format, InitialQuality, None);
        match codec.encode(first)
        case None => Run(Unchanged(image), [first])
        case Some(encoded) =>
          var loop := QualityLoop(image, format, codec, InitialQuality, encoded);
          Finish(image, format, codec, info, [first] + loop.attempts, loop.output)
  }

  /**
   * After the quality loop: its failure returns the input; a buffer still over the target is
   * replaced by one resize at quality 75; the result reports the input's and the buffer's sizes.
   */
  function Finish(image: Bytes, format: Format, codec: Codec, info: ImageInfo, attempts: seq<Request>, output: Option<Bytes>)
    : (r: Run)
    ensures r.result.wasCompressed ==> r.result.originalSize == |image| && r.result.compressedSize == |r.result.data|
    ensures !r.result.wasCompressed ==> r.result == Unchanged(image)
  {
    match output
    case None => Run(Unchanged(image), attempts)
    case Some(buffer) =>
      if |buffer| > TargetSize then
        var resize := Request(image, format, ResizeQuality,
          Some(Resize(BaseDimension(info.width, DefaultWidth), BaseDimension(info.height, DefaultHeight), |buffer|)));
        match codec.encode(resize)
        case None => Run(Unchanged(image), attempts + [resize])
        case Some(resized) => Run(CompressionResult(resized, |image|, |resized|, true), attempts + [resize])
      else
        Run(CompressionResult(buffer, |image|, |buffer|, true), attempts)
  }

  /**
   * Every encode request is made from the original input, in the output format chosen from the
   * MIME type, and there are at most seven of them (80, 70, 60, 50, 40, 30 and one resize).
   */
  lemma AttemptsFromOriginal(image: Bytes, mimeType: string, codec: Codec)
    ensures var attempts := Compress(image, mimeType, codec).attempts;
      && |attempts| <= MaxAttempts
      && forall i | 0 <= i < |attempts| ::
           attempts[i].source == image && attempts[i].format == OutputFormat(mimeType)
  {
    var format := OutputFormat(mimeType);
    var first := Request(image, format, InitialQuality, None);
    if |image| > SizeThreshold && codec.probe(image).Some? && codec.encode(first).Some? {
      QualityLoopShape(image, format, codec, InitialQuality, codec.encode(first).value);
    }
  }

  /**
   * The reported result: an uncompressed result is the input itself with both sizes equal to
   * its length; a compressed one carries the input length as original size, the returned
   * buffer's length as compressed size, and is the output of the last encode request.
   */
  lemma ResultFields(image: Bytes, mimeType: string, codec: Codec)
    ensures var run := Compress(image, mimeType, codec);
      && (!run.result.wasCompressed ==> run.result == Unchanged(image))
      && (run.result.wasCompressed ==>
            && |image| > SizeThreshold
            && run.result.originalSize == |image|
            && run.result.compressedSize == |run.result.data|
            && |run.attempts| > 0
            && codec.encode(Last(run.attempts)) == Some(run.result.data))
  {
    var format := OutputFormat(mimeType);
    var first := Request(image, format, InitialQuality, None);
    if |image| > SizeThreshold && codec.probe(image).Some? && codec.encode(first).Some? {
      var loop := QualityLoop(image, format, codec, InitialQuality, codec.encode(first).value);
      QualityLoopShape(image, format, codec, InitialQuality, codec.encode(first).value);
      var attempts := [first] + loop.attempts;
      if |loop.attempts| > 0 {
        assert Last(attempts) == Last(loop.attempts);
      }
    }
  }

  /**
   * The requests before any resize: the first encode at quality 80, then the loop's, one step
   * lower each; the last of them produced the loop's output, and an output still over the
   * target was produced at the floor quality.
   */
  lemma PlainRequests(image: Bytes, format: Format, codec: Codec, encoded: Bytes)
    requires codec.encode(Request(image, format, InitialQuality, None)) == Some(encoded)
    ensures var loop := QualityLoop(image, format, codec, InitialQuality, encoded);
      var prefix := [Request(image, format, InitialQuality, None)] + loop.attempts;
      && (forall i | 0 <= i < |prefix| ::
            prefix[i].resize.None? && prefix[i].quality == InitialQuality - QualityStep * i && QualityFloor <= prefix[i].quality)
      && codec.encode(Last(prefix)) == loop.output
      && (loop.output.Some? && |loop.output.value| > TargetSize ==> Last(prefix).quality == QualityFloor)
  {
    var first := Request(image, format, InitialQuality, None);
    var loop := QualityLoop(image, format, codec, InitialQuality, encoded);
    QualityLoopShape(image, format, codec, InitialQuality, encoded);
    var prefix := [first] + loop.attempts;
    assert forall i | 1 <= i < |prefix| :: prefix[i] == loop.attempts[i - 1];
    assert Last(prefix) == if |loop.attempts| > 0 then Last(loop.attempts) else first;
  }

  /** Every request without a resize is the i-th step of 80, 70, ..., 30. */
  predicate StepSchedule(attempts: seq<Request>) {
    forall i | 0 <= i < |attempts| && attempts[i].resize.None? ::
      attempts[i].quality == InitialQuality - QualityStep * i && QualityFloor <= attempts[i].quality
  }

  /**
   * A resize request can only be the last one, at quality 75, made after a request at the
   * floor quality produced a buffer over the target, scaled from that buffer's size.
   */
  predicate ResizeOnlyLast(attempts: seq<Request>, codec: Codec) {
    forall i | 0 <= i < |attempts| && attempts[i].resize.Some? ::
      && i == |attempts| - 1 && i > 0
      && attempts[i].quality == ResizeQuality
      && attempts[i - 1].quality == QualityFloor
      && codec.encode(attempts[i - 1]).Some?
      && |codec.encode(attempts[i - 1]).value| > TargetSize
      && attempts[i].resize.value.fromSize == |codec.encode(attempts[i - 1]).value|
  }

  /** A plain schedule followed by one resize request scaled from the floor-quality output. */
  lemma ScheduleWithResize(prefix: seq<Request>, resize: Request, codec: Codec)
    requires prefix != [] && StepSchedule(prefix)
    requires forall i | 0 <= i < |prefix| :: prefix[i].resize.None?
    requires Last(prefix).quality == QualityFloor
    requires codec.encode(Last(prefix)).Some? && |codec.encode(Last(prefix)).value| > TargetSize
    requires resize.resize.Some? && resize.quality == ResizeQuality
    requires resize.resize.value.fromSize == |codec.encode(Last(prefix)).value|
    ensures StepSchedule(prefix + [resize]) && ResizeOnlyLast(prefix + [resize], codec)
  {
    var attempts := prefix + [resize];
    assert forall i | 0 <= i < |prefix| :: attempts[i] == prefix[i];
  }

  /**
   * The quality schedule: every request without a resize is the i-th step of 80, 70, ..., 30,
   * and a resize request can only be the last one, at quality 75, made after the request at
   * the floor quality still produced a buffer over the target, scaled from that buffer's size.
   */
  lemma QualitySchedule(image: Bytes, mimeType: string, codec: Codec)
    ensures var attempts := Compress(image, mimeType, codec).attempts;
      StepSchedule(attempts) && ResizeOnlyLast(attempts, codec)
  {
    var attempts := Compress(image, mimeType, codec).attempts;
    var format := OutputFormat(mimeType);
    var first := Request(image, format, InitialQuality, None);
    if |image| > SizeThreshold && codec.probe(image).Some? {
      var info := codec.probe(image).value;
      match codec.encode(first)
      case None =>
      case Some(encoded) =>
        var loop := QualityLoop(image, format, codec, InitialQuality, encoded);
        PlainRequests(image, format, codec, encoded);
        var prefix := [first] + loop.attempts;
        if loop.output.Some? && |loop.output.value| > TargetSize {
          var buffer := loop.output.value;
          var resize := Request(image, format, ResizeQuality,
            Some(Resize(BaseDimension(info.width, DefaultWidth), BaseDimension(info.height, DefaultHeight), |buffer|)));
          assert attempts == prefix + [resize];
          ScheduleWithResize(prefix, resize, codec);
        } else {
          assert attempts == prefix;
        }
    }
  }

  /** Every request without a resize is a step of the loop; a run ends, at the latest, after one resize. */
  lemma AtMostOneResize(image: Bytes, mimeType: string, codec: Codec, i: nat, j: nat)
    requires var attempts := Compress(image, mimeType, codec).attempts;
      i < |attempts| && j < |attempts| && attempts[i].resize.Some? && attempts[j].resize.Some?
    ensures i == j
  {
    QualitySchedule(image, mimeType, codec);
  }

  /**
   * Convergence: a compressed result is within the target size, or the quality was driven
   * down to the floor and the one resize attempt produced it.
   */
  lemma Converges(image: Bytes, mimeType: string, codec: Codec)
    ensures var run := Compress(image, mimeType, codec);
      run.result.wasCompressed ==>
        || |run.result.data| <= TargetSize
        || (Last(run.attempts).resize.Some? && Last(run.attempts).quality == ResizeQuality
            && |run.attempts| >= 2 && run.attempts[|run.attempts| - 2].quality == QualityFloor)
  {
    var format := OutputFormat(mimeType);
    var first := Request(image, format, InitialQuality, None);
    QualitySchedule(image, mimeType, codec);
    if |image| > SizeThreshold && codec.probe(image).Some? && codec.encode(first).Some? {
      QualityLoopShape(image, format, codec, InitialQuality, codec.encode(first).value);
    }
  }

  /**
   * Any failure over the threshold (metadata read or any encode) returns the input:
   * the run is uncompressed exactly when it is under the threshold, the probe failed,
   * or its last request threw.
   */
  lemma FailureFallsBack(image: Bytes, mimeType: string, codec: Codec)
    ensures var run := Compress(image, mimeType, codec);
      !run.result.wasCompressed <==>
        || |image| <= SizeThreshold
        || codec.probe(image).None?
        || codec.encode(Last(run.attempts)).None?
  {
    var format := OutputFormat(mimeType);
    var first := Request(image, format, InitialQuality, None);
    if |image| > SizeThreshold && codec.probe(image).Some? && codec.encode(first).Some? {
      var loop := QualityLoop(image, format, codec, InitialQuality, codec.encode(first).value);
      QualityLoopShape(image, format, codec, InitialQuality, codec.encode(first).value);
      var attempts := [first] + loop.attempts;
      if |loop.attempts| > 0 {
        assert Last(attempts) == Last(loop.attempts);
      }
    }
  }

  /** `compressImage`, step by step as the service runs it. */
  method CompressImage(image: Bytes, mimeType: string, codec: Codec) returns (result: CompressionResult, attempts: seq<Request>)
    ensures Run(result, attempts) == Compress(image, mimeType, codec)
  {
    var originalSize := |image|;
    if originalSize <= SizeThreshold {
      return Unchanged(image), [];
    }
    var info := codec.probe(image);
    if info.None? {
      return Unchanged(image), [];
    }
    var format := OutputFormat(mimeType);
    var quality := InitialQuality;
    var first := Request(image, format, quality, None);
    attempts := [first];
    var encoded := codec.encode(first);
    if encoded.None? {
      return Unchanged(image), attempts;
    }
    var buffer := encoded.value;
    ghost var loop := QualityLoop(image, format, codec, InitialQuality, buffer);
    while |buffer| > TargetSize && quality > QualityFloor
      invariant QualityFloor <= quality && quality % QualityStep == 0
      invariant attempts + QualityLoop(image, format, codec, quality, buffer).attempts == [first] + loop.attempts
      invariant QualityLoop(image, format, codec, quality, buffer).output == loop.output
      decreases quality
    {
      quality := quality - QualityStep;
      var attempt := Request(image, format, quality, None);
      attempts := attempts + [attempt];
      encoded := codec.encode(attempt);
      if encoded.None? {
        assert attempts == [first] + loop.attempts && loop.output.None?;
        assert Compress(image, mimeType, codec) == Finish(image, format, codec, info.value, attempts, None);
        return Unchanged(image), attempts;
      }
      buffer := encoded.value;
    }
    assert QualityLoop(image, format, codec, quality, buffer) == LoopRun(Some(buffer), quality, []);
    assert attempts == [first] + loop.attempts && loop.output == Some(buffer);
    assert Compress(image, mimeType, codec) == Finish(image, format, codec, info.value, attempts, Some(buffer));
    if |buffer| > TargetSize {
      var resize := Request(image, format, ResizeQuality,
        Some(Resize(BaseDimension(info.value.width, DefaultWidth), BaseDimension(info.value.height, DefaultHeight), |buffer|)));
      attempts := attempts + [resize];
      encoded := codec.encode(resize);
      if encoded.None? {
        return Unchanged(image), attempts;
      }
      buffer := encoded.value;
    }
    result := CompressionResult(buffer, originalSize, |buffer|, true);
  }

  /** `compressMultiple`: one result per input, in input order, each carrying the input's name. */
  method CompressMultiple(images: seq<SourceImage>, codec: Codec) returns (results: seq<NamedResult>)
    ensures |results| == |images|
    ensures forall i | 0 <= i < |images| ::
      results[i] == NamedResult(images[i].name, Compress(images[i].data, images[i].mimeType, codec).result)
  {
    results := [];
    for k := 0 to |images|
      invariant |results| == k
      invariant forall i | 0 <= i < k ::
        results[i] == NamedResult(images[i].name, Compress(images[i].data, images[i].mimeType, codec).result)
    {
      var result, _ := CompressImage(images[k].data, images[k].mimeType, codec);
      results := results + [NamedResult(images[k].name, result)];
    }
  }
}
