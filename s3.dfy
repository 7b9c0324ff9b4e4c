/**
 * The metadata store (`S3Service`): image bytes under `images/<timestamp>-<file name>`, one
 * JSON record per image under `metadata/<id>.json`, a listing of the records and a refresh of
 * their presigned URLs.
 *
 * The bucket is the `objects` map of an `S3Service`. A stored record is kept as the record
 * itself (JSON serialisation and parsing are taken to be inverse). The keys whose PutObject
 * fails, the request presigner and `decodeURIComponent` are oracles; the clock is a parameter.
 */
module S3 {
  import opened Base
  import opened Text
  import Rekognition

  const ImagesPrefix: string := "images/"
  const MetadataPrefix: string := "metadata/"
  const JsonSuffix: string := ".json"
  /** Seven days, in seconds. */
  const SignedUrlLifetime: nat := 604800
  const S3HostMarker: string := "amazonaws.com"
  const HostEnd: string := ".com/"

  const UploadImageFailed: string := "Failed to upload image to S3"
  const UploadMetadataFailed: string := "Failed to upload metadata"
  const SignFailed: string := "Failed to generate signed URL"
  /** The TypeError of `split('/')[1].split(...)` or `split('.com/')[1].split(...)` on `undefined`. */
  const UndefinedSplit: string := "Cannot read properties of undefined (reading 'split')"
  /** The URIError of `decodeURIComponent` on a malformed escape. */
  const UriMalformed: string := "URI malformed"

  /** A record's `metadata`; the gallery's sample records carry only `uploadedAt`. */
  datatype RecordInfo = RecordInfo(uploadedAt: string, originalName: Option<string>, size: Option<nat>)

  datatype ImageMetadata = ImageMetadata(
    id: string, imageUrl: string, labels: seq<string>,
    faces: seq<Rekognition.FaceDetail>, metadata: RecordInfo)

  /** The fields a caller's `metadata.metadata` may carry; each present one overrides the default. */
  datatype InfoOverrides = InfoOverrides(uploadedAt: Option<string>, originalName: Option<string>, size: Option<nat>)

  /** `Partial<ImageMetadata>` as the upload route fills it. */
  datatype PartialMetadata = PartialMetadata(
    id: Option<string>, labels: Option<seq<string>>,
    faces: Option<seq<Rekognition.FaceDetail>>, metadata: Option<InfoOverrides>)

  datatype StoredObject = Blob(body: Bytes, contentType: string) | Json(record: ImageMetadata)

  datatype UploadResult = UploadResult(key: string, url: string, bucket: string)

  /** What an operation returns, with the bucket it leaves behind. */
  datatype Step<T> = Step(result: Result<T>, objects: map<string, StoredObject>)

  // ---------------------------------------------------------------------------
  // Keys and ids
  // ---------------------------------------------------------------------------

  /** `images/${Date.now()}-${fileName}`. */
  function ImageKey(now: nat, fileName: string): (key: string)
    ensures StartsWith(key, ImagesPrefix) && EndsWith(key, fileName)
  {
    var key := ImagesPrefix + NatToString(now) + "-" + fileName;
    assert key[..|ImagesPrefix|] == ImagesPrefix;
    assert key[|key| - |fileName|..] == fileName;
    key
  }

  /** `metadata/${imageId}.json`. */
  function MetadataKey(id: string): (key: string)
    ensures StartsWith(key, MetadataPrefix) && EndsWith(key, JsonSuffix)
  {
    var key := MetadataPrefix + id + JsonSuffix;
    assert key[..|MetadataPrefix|] == MetadataPrefix;
    assert key[|key| - |JsonSuffix|..] == JsonSuffix;
    key
  }

  /** The two namespaces never meet: no image key is a metadata key. */
  lemma KeysDisjoint(now: nat, fileName: string, id: string)
    ensures ImageKey(now, fileName) != MetadataKey(id)
  {
    assert ImageKey(now, fileName)[0] == 'i';
    assert MetadataKey(id)[0] == 'm';
  }

  /** A metadata key gives its id back. */
  lemma MetadataKeyInjective(id1: string, id2: string)
    requires MetadataKey(id1) == MetadataKey(id2)
    ensures id1 == id2
  {
    var k := MetadataKey(id1);
    assert id1 == k[|MetadataPrefix|..|k| - |JsonSuffix|];
    assert id2 == k[|MetadataPrefix|..|k| - |JsonSuffix|];
  }

  /** `key.split('/')[1].split('-')[0]`; `None` where the first `split` has no second field. */
  function IdFromKey(key: string): (r: Option<string>)
    ensures r.None? <==> '/' !in key
    ensures r.Some? ==> '-' !in r.value && '/' !in r.value
  {
    match AfterChar(key, '/')
    case None => None
    case Some(rest) => Some(BeforeChar(BeforeChar(rest, '/'), '-'))
  }

  lemma BeforeOwnSeparator(c: char, s: string)
    ensures BeforeChar([c] + s, c) == []
  {
  }

  /** The id derived from an image key is the upload's timestamp, whatever the file name holds. */
  lemma IdOfImageKey(now: nat, fileName: string)
    ensures IdFromKey(ImageKey(now, fileName)) == Some(NatToString(now))
  {
    var digits := NatToString(now);
    var rest := digits + "-" + fileName;
    assert ImageKey(now, fileName) == "images" + ['/'] + rest;
    assert '/' !in "images";
    AfterCharAppend("images", rest, '/');
    assert '/' !in digits && '-' !in digits by {
      forall i | 0 <= i < |digits| ensures digits[i] != '/' && digits[i] != '-' {
        assert IsDigit(digits[i]);
      }
    }
    assert rest == digits + ("-" + fileName);
    BeforeCharAppend(digits, "-" + fileName, '/');
    assert "-" + fileName == ['-'] + fileName;
    BeforeCharAppend(['-'], fileName, '/');
    var head := digits + ("-" + BeforeChar(fileName, '/'));
    assert BeforeChar(rest, '/') == head;
    BeforeCharAppend(digits, "-" + BeforeChar(fileName, '/'), '-');
    BeforeOwnSeparator('-', BeforeChar(fileName, '/'));
    assert digits + [] == digits;
  }

  // ---------------------------------------------------------------------------
  // Writes
  // ---------------------------------------------------------------------------

  /** `getSignedUrl` with its seven-day default. */
  function SignedUrl(presign: (string, nat) -> Option<string>, key: string): (r: Result<string>)
    ensures r.Ok? <==> presign(key, SignedUrlLifetime).Some?
  {
    match presign(key, SignedUrlLifetime)
    case None => Err(SignFailed)
    case Some(url) => Ok(url)
  }

  /**
   * `uploadImage`: the bytes are written first and the URL signed afterwards; a signing failure
   * therefore fails the upload with the bytes already stored.
   */
  function UploadImageStep(
    objects: map<string, StoredObject>, refused: set<string>, presign: (string, nat) -> Option<string>,
    bucketName: string, buffer: Bytes, fileName: string, contentType: string, now: nat): (s: Step<UploadResult>)
    ensures var key := ImageKey(now, fileName);
      && (key in refused ==> s == Step(Err(UploadImageFailed), objects))
      && (key !in refused ==> s.objects == objects[key := Blob(buffer, contentType)])
      && (s.result.Ok? <==> key !in refused && presign(key, SignedUrlLifetime).Some?)
      && (s.result.Ok? ==> s.result.value == UploadResult(key, presign(key, SignedUrlLifetime).value, bucketName))
  {
    var key := ImageKey(now, fileName);
    if key in refused then Step(Err(UploadImageFailed), objects)
    else
      var written := objects[key := Blob(buffer, contentType)];
      match SignedUrl(presign, key)
      case Err(_) => Step(Err(UploadImageFailed), written)
      case Ok(url) => Step(Ok(UploadResult(key, url, bucketName)), written)
  }

  /** `uploadMetadata`: one write under the record's metadata key, or a failure and no write. */
  function UploadMetadataStep(objects: map<string, StoredObject>, refused: set<string>, id: string, record: ImageMetadata): (s: Step<()>)
    ensures MetadataKey(id) in refused <==> s.result.Err?
    ensures s.result.Err? ==> s.objects == objects
    ensures s.result.Ok? ==> s.objects == objects[MetadataKey(id) := Json(record)]
  {
    var key := MetadataKey(id);
    if key in refused then Step(Err(UploadMetadataFailed), objects)
    else Step(Ok(()), objects[key := Json(record)])
  }

  /** The record `uploadImageWithMetadata` builds from the upload and the caller's partial record. */
  function FullMetadata(upload: UploadResult, buffer: Bytes, fileName: string, partial: PartialMetadata, nowIso: string)
    : (r: Result<ImageMetadata>)
    ensures r.Err? <==> (partial.id.None? || partial.id.value == "") && '/' !in upload.key
    ensures r.Ok? ==> r.value.imageUrl == upload.url
    ensures r.Ok? && partial.id.Some? && partial.id.value != "" ==> r.value.id == partial.id.value
  {
    var id :=
      if partial.id.Some? && partial.id.value != "" then Some(partial.id.value) else IdFromKey(upload.key);
    if id.None? then Err(UndefinedSplit)
    else
      var overrides := partial.metadata.GetOr(InfoOverrides(None, None, None));
      Ok(ImageMetadata(
        id.value, upload.url, partial.labels.GetOr([]), partial.faces.GetOr([]),
        RecordInfo(
          overrides.uploadedAt.GetOr(nowIso),
          Some(overrides.originalName.GetOr(fileName)),
          Some(overrides.size.GetOr(|buffer|)))))
  }

  /** `uploadImageWithMetadata`: the image is written, then the record. */
  function UploadWithMetadataStep(
    objects: map<string, StoredObject>, refused: set<string>, presign: (string, nat) -> Option<string>,
    bucketName: string, buffer: Bytes, fileName: string, contentType: string, partial: PartialMetadata,
    now: nat, nowIso: string): (s: Step<ImageMetadata>)
    ensures objects.Keys <= s.objects.Keys
    ensures forall key | key in s.objects && (key !in objects || s.objects[key] != objects[key]) ::
      key == ImageKey(now, fileName) || StartsWith(key, MetadataPrefix)
    ensures s.result.Ok? ==> ImageKey(now, fileName) !in refused && presign(ImageKey(now, fileName), SignedUrlLifetime).Some?
  {
    var up := UploadImageStep(objects, refused, presign, bucketName, buffer, fileName, contentType, now);
    if up.result.Err? then Step(Err(up.result.message), up.objects)
    else
      match FullMetadata(up.result.value, buffer, fileName, partial, nowIso)
      case Err(e) => Step(Err(e), up.objects)
      case Ok(record) =>
        var meta := UploadMetadataStep(up.objects, refused, record.id, record);
        if meta.result.Err? then Step(Err(meta.result.message), meta.objects)
        else Step(Ok(record), meta.objects)
  }

  /**
   * The record stored by a successful upload: the caller's id if non-empty, else the upload's
   * timestamp; labels and faces default to empty; `uploadedAt`, the original name and the size
   * are the clock's time, the file name and the buffer's length, each unless the caller's
   * `metadata.metadata` supplies it; the URL is the presigned URL of the image key. Exactly two
   * objects are written.
   */
  lemma UploadedRecord(
    objects: map<string, StoredObject>, refused: set<string>, presign: (string, nat) -> Option<string>,
    bucketName: string, buffer: Bytes, fileName: string, contentType: string, partial: PartialMetadata,
    now: nat, nowIso: string)
    ensures var s := UploadWithMetadataStep(objects, refused, presign, bucketName, buffer, fileName, contentType, partial, now, nowIso);
      var key := ImageKey(now, fileName);
      s.result.Ok? ==>
        var r := s.result.value;
        && r.id == (if partial.id.Some? && partial.id.value != "" then partial.id.value else NatToString(now))
        && r.imageUrl == presign(key, SignedUrlLifetime).value
        && r.labels == partial.labels.GetOr([]) && r.faces == partial.faces.GetOr([])
        && (var o := partial.metadata.GetOr(InfoOverrides(None, None, None));
            r.metadata == RecordInfo(o.uploadedAt.GetOr(nowIso), Some(o.originalName.GetOr(fileName)), Some(o.size.GetOr(|buffer|))))
        && s.objects == objects[key := Blob(buffer, contentType)][MetadataKey(r.id) := Json(r)]
  {
    IdOfImageKey(now, fileName);
  }

  /** The image is written before the record: when the image write fails, nothing is written. */
  lemma ImageFailureWritesNothing(
    objects: map<string, StoredObject>, refused: set<string>, presign: (string, nat) -> Option<string>,
    bucketName: string, buffer: Bytes, fileName: string, contentType: string, partial: PartialMetadata,
    now: nat, nowIso: string)
    requires ImageKey(now, fileName) in refused
    ensures UploadWithMetadataStep(objects, refused, presign, bucketName, buffer, fileName, contentType, partial, now, nowIso)
      == Step(Err(UploadImageFailed), objects)
  {
  }

  /** Once the image write succeeds, the image stays stored whatever happens to the record. */
  lemma ImageStaysWritten(
    objects: map<string, StoredObject>, refused: set<string>, presign: (string, nat) -> Option<string>,
    bucketName: string, buffer: Bytes, fileName: string, contentType: string, partial: PartialMetadata,
    now: nat, nowIso: string)
    requires ImageKey(now, fileName) !in refused
    ensures var s := UploadWithMetadataStep(objects, refused, presign, bucketName, buffer, fileName, contentType, partial, now, nowIso);
      ImageKey(now, fileName) in s.objects && s.objects[ImageKey(now, fileName)] == Blob(buffer, contentType)
  {
    var key := ImageKey(now, fileName);
    var s := UploadWithMetadataStep(objects, refused, presign, bucketName, buffer, fileName, contentType, partial, now, nowIso);
    var up := UploadImageStep(objects, refused, presign, bucketName, buffer, fileName, contentType, now);
    assert up.objects[key] == Blob(buffer, contentType);
    if up.result.Err? {
      assert s.objects == up.objects;
    } else {
      var full := FullMetadata(up.result.value, buffer, fileName, partial, nowIso);
      if full.Err? {
        assert s.objects == up.objects;
      } else {
        var meta := UploadMetadataStep(up.objects, refused, full.value.id, full.value);
        KeysDisjoint(now, fileName, full.value.id);
        assert s.objects == meta.objects;
      }
    }
  }

  // ---------------------------------------------------------------------------
  // Reads
  // ---------------------------------------------------------------------------

  /** `getMetadata`: the stored record, or `None` when the read, the body or the parse fails. */
  function GetMetadata(objects: map<string, StoredObject>, key: string): (r: Option<ImageMetadata>)
    ensures r.Some? <==> key in objects && objects[key].Json?
    ensures r.Some? ==> objects[key] == Json(r.value)
  {
    if key in objects && objects[key].Json? then Some(objects[key].record) else None
  }

  /** The records the listing loop keeps from the listed keys, in listing order. */
  function Listed(objects: map<string, StoredObject>, keys: seq<string>): (r: seq<ImageMetadata>)
    ensures |r| <= |keys|
  {
    if keys == [] then []
    else
      var key := keys[|keys| - 1];
      Listed(objects, keys[..|keys| - 1])
        + if EndsWith(key, JsonSuffix) && GetMetadata(objects, key).Some? then [GetMetadata(objects, key).value] else []
  }

  /**
   * The keys of one ListObjectsV2 page requested with the prefix `metadata/`: distinct keys of
   * the bucket, each under `metadata/`. Only one page is read, so it need not hold them all.
   */
  predicate MetadataPage(objects: map<string, StoredObject>, keys: seq<string>) {
    && Distinct(keys)
    && forall key | key in keys :: key in objects && StartsWith(key, MetadataPrefix)
  }

  /**
   * `listAllMetadata`; `listing` is what the ListObjectsV2 call returns, `None` when it throws.
   * Every record it returns is stored in the bucket under a `metadata/` key ending in `.json`.
   */
  function ListAll(objects: map<string, StoredObject>, listing: Option<seq<string>>): (r: seq<ImageMetadata>)
    requires listing.Some? ==> MetadataPage(objects, listing.value)
    ensures listing.None? ==> r == []
    ensures forall x | x in r :: exists key | key in objects ::
      StartsWith(key, MetadataPrefix) && EndsWith(key, JsonSuffix) && objects[key] == Json(x)
  {
    match listing
    case None => []
    case Some(keys) =>
      ListedSound(objects, keys);
      Listed(objects, keys)
  }

  /** Every listed record is stored in the bucket under a listed `metadata/` key ending in `.json`. */
  lemma {:induction false} ListedSound(objects: map<string, StoredObject>, keys: seq<string>)
    requires MetadataPage(objects, keys)
    ensures forall r | r in Listed(objects, keys) ::
      exists key | key in keys ::
        StartsWith(key, MetadataPrefix) && EndsWith(key, JsonSuffix) && key in objects && objects[key] == Json(r)
  {
    if keys != [] {
      var prefix := keys[..|keys| - 1];
      assert forall i | 0 <= i < |prefix| :: prefix[i] == keys[i];
      ListedSound(objects, prefix);
      assert forall key | key in prefix :: key in keys;
    }
  }

  /** Every listed `.json` key that holds a record contributes it. */
  lemma {:induction false} ListedComplete(objects: map<string, StoredObject>, keys: seq<string>)
    ensures forall key | key in keys && EndsWith(key, JsonSuffix) && key in objects && objects[key].Json? ::
      objects[key].record in Listed(objects, keys)
  {
    if keys != [] {
      var prefix := keys[..|keys| - 1];
      ListedComplete(objects, prefix);
      assert keys == prefix + [keys[|keys| - 1]];
    }
  }

  /**
   * When the one page holds every key of the bucket under `metadata/`, every record stored under
   * a `metadata/` key ending in `.json` is returned.
   */
  lemma FullPageListsAll(objects: map<string, StoredObject>, keys: seq<string>)
    requires MetadataPage(objects, keys)
    requires forall key | key in objects && StartsWith(key, MetadataPrefix) :: key in keys
    ensures forall key | key in objects && StartsWith(key, MetadataPrefix) && EndsWith(key, JsonSuffix) && objects[key].Json? ::
      objects[key].record in ListAll(objects, Some(keys))
  {
    ListedComplete(objects, keys);
  }

  // ---------------------------------------------------------------------------
  // URL refresh
  // ---------------------------------------------------------------------------

  /**
   * The image key `refreshAllUrls` signs for a record: from an S3 URL, the decoded text after
   * the first `.com/` up to the first `?`; otherwise `images/<id>`. Both string steps can throw
   * outside the loop's `try`: a URL naming `amazonaws.com` without a `.com/`, or a malformed
   * escape.
   */
  function RefreshKey(record: ImageMetadata, decode: string -> Option<string>): (r: Result<string>)
    ensures r.Err? ==> r.message == UndefinedSplit || r.message == UriMalformed
  {
    if Contains(record.imageUrl, S3HostMarker) then
      match SecondField(record.imageUrl, HostEnd)
      case None => Err(UndefinedSplit)
      case Some(path) =>
        match decode(BeforeChar(path, '?'))
        case None => Err(UriMalformed)
        case Some(key) => Ok(key)
    else
      Ok(ImagesPrefix + record.id)
  }

  /**
   * Key reconstruction throws exactly on an S3 URL without `.com/` or with an undecodable path;
   * any other URL gives a key under `images/`.
   */
  lemma RefreshKeyAborts(record: ImageMetadata, decode: string -> Option<string>)
    ensures var r := RefreshKey(record, decode);
      && (r.Err? <==>
            Contains(record.imageUrl, S3HostMarker) &&
            (!Contains(record.imageUrl, HostEnd) ||
             decode(BeforeChar(SecondField(record.imageUrl, HostEnd).value, '?')).None?))
      && (!Contains(record.imageUrl, S3HostMarker) ==> r.Ok? && StartsWith(r.value, ImagesPrefix))
  {
    if !Contains(record.imageUrl, S3HostMarker) {
      var key := ImagesPrefix + record.id;
      assert key[..|ImagesPrefix|] == ImagesPrefix;
    }
  }

  datatype RecordStep = RecordStep(record: ImageMetadata, objects: map<string, StoredObject>)

  /**
   * The `try` block for one record whose key was found: a signing failure leaves it as it was;
   * otherwise its URL is replaced, then it is written back (a refused write keeps the new URL in
   * memory only).
   */
  function RefreshRecord(
    objects: map<string, StoredObject>, refused: set<string>, presign: (string, nat) -> Option<string>,
    record: ImageMetadata, key: string): (s: RecordStep)
    ensures s.record == record || s.record == record.(imageUrl := s.record.imageUrl)
    ensures presign(key, SignedUrlLifetime).None? ==> s == RecordStep(record, objects)
    ensures presign(key, SignedUrlLifetime).Some? ==> s.record == record.(imageUrl := presign(key, SignedUrlLifetime).value)
    ensures s.objects == objects || s.objects == objects[MetadataKey(record.id) := Json(s.record)]
    ensures presign(key, SignedUrlLifetime).Some? && MetadataKey(record.id) !in refused ==>
      s.objects == objects[MetadataKey(record.id) := Json(s.record)]
    ensures presign(key, SignedUrlLifetime).Some? && MetadataKey(record.id) in refused ==> s.objects == objects
  {
    match SignedUrl(presign, key)
    case Err(_) => RecordStep(record, objects)
    case Ok(url) =>
      var updated := record.(imageUrl := url);
      RecordStep(updated, UploadMetadataStep(objects, refused, updated.id, updated).objects)
  }

  /** The loop of `refreshAllUrls` over the listed records. */
  function RefreshAll(
    objects: map<string, StoredObject>, refused: set<string>, presign: (string, nat) -> Option<string>,
    decode: string -> Option<string>, records: seq<ImageMetadata>): (s: Step<seq<ImageMetadata>>)
    ensures objects.Keys <= s.objects.Keys
    ensures s.result.Ok? ==> |s.result.value| == |records|
  {
    if records == [] then Step(Ok([]), objects)
    else
      var prev := RefreshAll(objects, refused, presign, decode, records[..|records| - 1]);
      var last := records[|records| - 1];
      if prev.result.Err? then prev
      else
        match RefreshKey(last, decode)
        case Err(e) => Step(Err(e), prev.objects)
        case Ok(key) =>
          var s := RefreshRecord(prev.objects, refused, presign, last, key);
          Step(Ok(prev.result.value + [s.record]), s.objects)
  }

  /** `after` keeps every key of `before`, and differs from it only under `metadata/` keys. */
  predicate OnlyMetadataWritten(before: map<string, StoredObject>, after: map<string, StoredObject>) {
    && before.Keys <= after.Keys
    && forall key | key in after && (key !in before || after[key] != before[key]) :: StartsWith(key, MetadataPrefix)
  }

  lemma OnlyMetadataWrittenTrans(a: map<string, StoredObject>, b: map<string, StoredObject>, c: map<string, StoredObject>)
    requires OnlyMetadataWritten(a, b) && OnlyMetadataWritten(b, c)
    ensures OnlyMetadataWritten(a, c)
  {
    forall key | key in c && (key !in a || c[key] != a[key])
      ensures StartsWith(key, MetadataPrefix)
    {
      if key in b && b[key] == c[key] {
        assert key !in a || b[key] != a[key];
      }
    }
  }

  /** Every record's object key can be found. */
  predicate KeysFound(records: seq<ImageMetadata>, decode: string -> Option<string>) {
    forall i | 0 <= i < |records| :: RefreshKey(records[i], decode).Ok?
  }

  /** `out` is `records`, one for one, with at most `imageUrl` changed in each. */
  predicate UrlsOnlyChanged(out: seq<ImageMetadata>, records: seq<ImageMetadata>) {
    |out| == |records| && forall i | 0 <= i < |records| :: out[i] == records[i].(imageUrl := out[i].imageUrl)
  }

  lemma KeysFoundLast(records: seq<ImageMetadata>, decode: string -> Option<string>)
    requires records != []
    ensures KeysFound(records, decode)
        <==> KeysFound(records[..|records| - 1], decode) && RefreshKey(records[|records| - 1], decode).Ok?
  {
    var n := |records| - 1;
    assert forall i | 0 <= i < n :: records[..n][i] == records[i];
  }

  lemma UrlsOnlyChangedAppend(out: seq<ImageMetadata>, records: seq<ImageMetadata>, r: ImageMetadata)
    requires records != []
    requires UrlsOnlyChanged(out, records[..|records| - 1])
    requires r == records[|records| - 1].(imageUrl := r.imageUrl)
    ensures UrlsOnlyChanged(out + [r], records)
  {
    var n := |records| - 1;
    assert forall i | 0 <= i < n :: (out + [r])[i] == out[i] && records[..n][i] == records[i];
  }

  /** The records come back one for one, changed only in `imageUrl`, exactly when every key can be found. */
  lemma {:induction false} RefreshChangesOnlyUrls(
    objects: map<string, StoredObject>, refused: set<string>, presign: (string, nat) -> Option<string>,
    decode: string -> Option<string>, records: seq<ImageMetadata>)
    ensures var s := RefreshAll(objects, refused, presign, decode, records);
      && (s.result.Ok? <==> KeysFound(records, decode))
      && (s.result.Ok? ==> UrlsOnlyChanged(s.result.value, records))
  {
    if records != [] {
      var n := |records| - 1;
      var prefix := records[..n];
      RefreshChangesOnlyUrls(objects, refused, presign, decode, prefix);
      KeysFoundLast(records, decode);
      var prev := RefreshAll(objects, refused, presign, decode, prefix);
      if prev.result.Ok? {
        match RefreshKey(records[n], decode)
        case Err(_) =>
        case Ok(key) =>
          var s := RefreshRecord(prev.objects, refused, presign, records[n], key);
          assert RefreshAll(objects, refused, presign, decode, records).result == Ok(prev.result.value + [s.record]);
          UrlsOnlyChangedAppend(prev.result.value, records, s.record);
      }
    }
  }

  /** The refresh writes only metadata keys and removes nothing. */
  lemma {:induction false} RefreshWritesOnlyMetadata(
    objects: map<string, StoredObject>, refused: set<string>, presign: (string, nat) -> Option<string>,
    decode: string -> Option<string>, records: seq<ImageMetadata>)
    ensures OnlyMetadataWritten(objects, RefreshAll(objects, refused, presign, decode, records).objects)
  {
    if records != [] {
      var prefix := records[..|records| - 1];
      RefreshWritesOnlyMetadata(objects, refused, presign, decode, prefix);
      var prev := RefreshAll(objects, refused, presign, decode, prefix);
      var last := records[|records| - 1];
      if prev.result.Ok? && RefreshKey(last, decode).Ok? {
        var s := RefreshRecord(prev.objects, refused, presign, last, RefreshKey(last, decode).value);
        assert StartsWith(MetadataKey(last.id), MetadataPrefix);
        assert OnlyMetadataWritten(prev.objects, s.objects);
        OnlyMetadataWrittenTrans(objects, prev.objects, s.objects);
      }
    }
  }

  /**
   * Refreshing changes only `imageUrl`, record by record, and writes only metadata keys; it
   * succeeds exactly when every record's key can be found.
   */
  lemma RefreshTouchesOnlyUrls(
    objects: map<string, StoredObject>, refused: set<string>, presign: (string, nat) -> Option<string>,
    decode: string -> Option<string>, records: seq<ImageMetadata>)
    ensures var s := RefreshAll(objects, refused, presign, decode, records);
      && (s.result.Ok? <==> forall i | 0 <= i < |records| :: RefreshKey(records[i], decode).Ok?)
      && (s.result.Ok? ==> |s.result.value| == |records|)
      && (s.result.Ok? ==>
            forall i | 0 <= i < |records| :: s.result.value[i] == records[i].(imageUrl := s.result.value[i].imageUrl))
      && objects.Keys <= s.objects.Keys
      && (forall key | key in s.objects && (key !in objects || s.objects[key] != objects[key]) :: StartsWith(key, MetadataPrefix))
  {
    RefreshChangesOnlyUrls(objects, refused, presign, decode, records);
    RefreshWritesOnlyMetadata(objects, refused, presign, decode, records);
  }

  /** Once a record's key cannot be found, the refresh has failed, whatever follows. */
  lemma {:induction false} RefreshAbortPersists(
    objects: map<string, StoredObject>, refused: set<string>, presign: (string, nat) -> Option<string>,
    decode: string -> Option<string>, records: seq<ImageMetadata>, n: nat)
    requires n <= |records|
    requires RefreshAll(objects, refused, presign, decode, records[..n]).result.Err?
    decreases |records| - n
    ensures RefreshAll(objects, refused, presign, decode, records) == RefreshAll(objects, refused, presign, decode, records[..n])
  {
    if n < |records| {
      assert records[..n + 1][..n] == records[..n];
      RefreshAbortPersists(objects, refused, presign, decode, records, n + 1);
    } else {
      assert records[..n] == records;
    }
  }

  /**
   * After a successful refresh the i-th record's key was found; the record comes back with the
   * presigned URL of that key, or unchanged when signing fails.
   */
  lemma {:induction false} RefreshedRecord(
    objects: map<string, StoredObject>, refused: set<string>, presign: (string, nat) -> Option<string>,
    decode: string -> Option<string>, records: seq<ImageMetadata>, i: nat)
    requires i < |records|
    requires RefreshAll(objects, refused, presign, decode, records).result.Ok?
    ensures var s := RefreshAll(objects, refused, presign, decode, records);
      var key := RefreshKey(records[i], decode);
      && key.Ok? && |s.result.value| == |records|
      && (presign(key.value, SignedUrlLifetime).Some? ==>
            s.result.value[i] == records[i].(imageUrl := presign(key.value, SignedUrlLifetime).value))
      && (presign(key.value, SignedUrlLifetime).None? ==> s.result.value[i] == records[i])
  {
    var n := |records| - 1;
    var prefix, last := records[..n], records[n];
    var s := RefreshAll(objects, refused, presign, decode, records);
    var prev := RefreshAll(objects, refused, presign, decode, prefix);
    assert prev.result.Ok? && RefreshKey(last, decode).Ok?;
    var step := RefreshRecord(prev.objects, refused, presign, last, RefreshKey(last, decode).value);
    assert s.result.value == prev.result.value + [step.record];
    if i < n {
      assert prefix[i] == records[i];
      RefreshedRecord(objects, refused, presign, decode, prefix, i);
    }
  }

  /**
   * A record whose URL cannot be signed comes back unchanged, and any other record whose key can
   * be signed is still refreshed.
   */
  lemma SignFailureIsolated(
    objects: map<string, StoredObject>, refused: set<string>, presign: (string, nat) -> Option<string>,
    decode: string -> Option<string>, records: seq<ImageMetadata>, i: nat, j: nat)
    requires i < |records| && j < |records|
    requires RefreshKey(records[i], decode).Ok? && presign(RefreshKey(records[i], decode).value, SignedUrlLifetime).None?
    requires RefreshAll(objects, refused, presign, decode, records).result.Ok?
    ensures var s := RefreshAll(objects, refused, presign, decode, records);
      && |s.result.value| == |records| && s.result.value[i] == records[i]
      && (RefreshKey(records[j], decode).Ok? && presign(RefreshKey(records[j], decode).value, SignedUrlLifetime).Some? ==>
            s.result.value[j] == records[j].(imageUrl := presign(RefreshKey(records[j], decode).value, SignedUrlLifetime).value))
  {
    RefreshedRecord(objects, refused, presign, decode, records, i);
    RefreshedRecord(objects, refused, presign, decode, records, j);
  }

  /**
   * After a successful refresh, a record whose key can be signed and whose metadata key accepts
   * writes is stored back under that key as refreshed, unless a later record with the same id
   * overwrites it.
   */
  lemma {:induction false} RefreshWritesBack(
    objects: map<string, StoredObject>, refused: set<string>, presign: (string, nat) -> Option<string>,
    decode: string -> Option<string>, records: seq<ImageMetadata>, i: nat)
    requires i < |records|
    requires RefreshAll(objects, refused, presign, decode, records).result.Ok?
    requires RefreshKey(records[i], decode).Ok? && presign(RefreshKey(records[i], decode).value, SignedUrlLifetime).Some?
    requires MetadataKey(records[i].id) !in refused
    requires forall k | i < k < |records| :: records[k].id != records[i].id
    ensures var s := RefreshAll(objects, refused, presign, decode, records);
      && |s.result.value| == |records|
      && MetadataKey(records[i].id) in s.objects && s.objects[MetadataKey(records[i].id)] == Json(s.result.value[i])
  {
    var n := |records| - 1;
    var prefix, last := records[..n], records[n];
    var s := RefreshAll(objects, refused, presign, decode, records);
    var prev := RefreshAll(objects, refused, presign, decode, prefix);
    assert prev.result.Ok? && RefreshKey(last, decode).Ok?;
    var step := RefreshRecord(prev.objects, refused, presign, last, RefreshKey(last, decode).value);
    assert s == Step(Ok(prev.result.value + [step.record]), step.objects);
    if i < n {
      assert prefix[i] == records[i];
      RefreshWritesBack(objects, refused, presign, decode, prefix, i);
      assert MetadataKey(last.id) != MetadataKey(records[i].id) by {
        if MetadataKey(last.id) == MetadataKey(records[i].id) {
          MetadataKeyInjective(last.id, records[i].id);
        }
      }
      assert s.result.value[i] == prev.result.value[i];
    }
  }

  // ---------------------------------------------------------------------------
  // The service
  // ---------------------------------------------------------------------------

  class S3Service {
    const region: string
    const bucketName: string
    /** The keys whose PutObject fails. */
    const refused: set<string>
    /** The request presigner: a URL for a key and a lifetime, or `None` when signing throws. */
    const presign: (string, nat) -> Option<string>
    /** The bucket's contents. */
    var objects: map<string, StoredObject>

    constructor (region: string, bucketName: string, refused: set<string>,
                 presign: (string, nat) -> Option<string>, objects: map<string, StoredObject>)
      ensures this.region == region && this.bucketName == bucketName && this.refused == refused
      ensures this.presign == presign && this.objects == objects
    {
      this.region := region;
      this.bucketName := bucketName;
      this.refused := refused;
      this.presign := presign;
      this.objects := objects;
    }

    method UploadImage(buffer: Bytes, fileName: string, contentType: string, now: nat) returns (r: Result<UploadResult>)
      modifies this
      ensures Step(r, objects) == UploadImageStep(old(objects), refused, presign, bucketName, buffer, fileName, contentType, now)
    {
      var key := ImageKey(now, fileName);
      if key in refused {
        return Err(UploadImageFailed);
      }
      objects := objects[key := Blob(buffer, contentType)];
      var url := SignedUrl(presign, key);
      if url.Err? {
        return Err(UploadImageFailed);
      }
      r := Ok(UploadResult(key, url.value, bucketName));
    }

    method UploadMetadata(id: string, record: ImageMetadata) returns (r: Result<()>)
      modifies this
      ensures Step(r, objects) == UploadMetadataStep(old(objects), refused, id, record)
    {
      var key := MetadataKey(id);
      if key in refused {
        return Err(UploadMetadataFailed);
      }
      objects := objects[key := Json(record)];
      r := Ok(());
    }

    method UploadImageWithMetadata(
      buffer: Bytes, fileName: string, contentType: string, partial: PartialMetadata, now: nat, nowIso: string)
      returns (r: Result<ImageMetadata>)
      modifies this
      ensures Step(r, objects) ==
        UploadWithMetadataStep(old(objects), refused, presign, bucketName, buffer, fileName, contentType, partial, now, nowIso)
    {
      var uploadResult := UploadImage(buffer, fileName, contentType, now);
      if uploadResult.Err? {
        return Err(uploadResult.message);
      }
      var fullMetadata := FullMetadata(uploadResult.value, buffer, fileName, partial, nowIso);
      if fullMetadata.Err? {
        return Err(fullMetadata.message);
      }
      var written := UploadMetadata(fullMetadata.value.id, fullMetadata.value);
      if written.Err? {
        return Err(written.message);
      }
      r := Ok(fullMetadata.value);
    }

    /** `listAllMetadata`, with its loop over the listed keys. */
    method ListAllMetadata(listing: Option<seq<string>>) returns (records: seq<ImageMetadata>)
      requires listing.Some? ==> MetadataPage(objects, listing.value)
      ensures records == ListAll(objects, listing)
    {
      if listing.None? {
        return [];
      }
      var metadataFiles := listing.value;
      records := [];
      for k := 0 to |metadataFiles|
        invariant records == Listed(objects, metadataFiles[..k])
      {
        assert metadataFiles[..k + 1][..k] == metadataFiles[..k];
        var key := metadataFiles[k];
        if EndsWith(key, JsonSuffix) {
          var metadata := GetMetadata(objects, key);
          if metadata.Some? {
            records := records + [metadata.value];
          }
        }
      }
      assert metadataFiles[..|metadataFiles|] == metadataFiles;
    }

    /** `refreshAllUrls`: each listed record's URL is re-signed and the record written back. */
    method RefreshAllUrls(listing: Option<seq<string>>, decode: string -> Option<string>)
      returns (r: Result<seq<ImageMetadata>>)
      requires listing.Some? ==> MetadataPage(objects, listing.value)
      modifies this
      ensures Step(r, objects) ==
        RefreshAll(old(objects), refused, presign, decode, ListAll(old(objects), listing))
    {
      var allMetadata := ListAllMetadata(listing);
      ghost var start := objects;
      var refreshed: seq<ImageMetadata> := [];
      for i := 0 to |allMetadata|
        invariant Step(Ok(refreshed), objects) == RefreshAll(start, refused, presign, decode, allMetadata[..i])
      {
        assert allMetadata[..i + 1][..i] == allMetadata[..i];
        var metadata := allMetadata[i];
        var imageKey := RefreshKey(metadata, decode);
        if imageKey.Err? {
          RefreshAbortPersists(start, refused, presign, decode, allMetadata, i + 1);
          r := Err(imageKey.message);
          return;
        }
        ghost var before := objects;
        var url := SignedUrl(presign, imageKey.value);
        if url.Ok? {
          metadata := metadata.(imageUrl := url.value);
          var _ := UploadMetadata(metadata.id, metadata);
        }
        assert RecordStep(metadata, objects) == RefreshRecord(before, refused, presign, allMetadata[i], imageKey.value);
        refreshed := refreshed + [metadata];
      }
      assert allMetadata[..|allMetadata|] == allMetadata;
      r := Ok(refreshed);
    }
  }
}
