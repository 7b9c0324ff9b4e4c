/**
 * `POST /api/upload`: validate the request, build the services, create the face collection
 * when missing, fetch the folder's images, then compress, analyse and store them one by one.
 *
 * `uuidv4()` is the supply `uuid`: its `i`-th call in a request returns `uuid(i)`. `Date.now()`
 * and `new Date().toISOString()` during the `k`-th upload return `clock(k)` and `iso(k)`.
 */
module UploadRoute {
  import opened Base
  import opened Text
  import Compression
  import GoogleDrive
  import Rekognition
  import S3
  import Config

  const MissingUrl: string := "Folder URL is required"
  const NoImages: string := "No images found in the provided folder"
  const GenericFailure: string := "Failed to process images"
  const SuccessPrefix: string := "Successfully processed "

  /** The JSON reply and its HTTP status. */
  datatype Response = Response(success: bool, status: nat, message: string, processedCount: Option<nat>)

  const BadRequest: Response := Response(false, 400, MissingUrl, None)
  const NotFound: Response := Response(false, 404, NoImages, None)

  /** The success reply: status 200, the number of stored images, and a message reporting it. */
  function Succeeded(count: nat): (r: Response)
    ensures r.success && r.status == 200 && r.processedCount == Some(count)
    ensures StartsWith(r.message, SuccessPrefix)
  {
    var message := SuccessPrefix + NatToString(count) + " images from the folder";
    assert message[..|SuccessPrefix|] == SuccessPrefix;
    Response(true, 200, message, Some(count))
  }

  /** The `catch` block: status 500 with the error's message, or a generic one when it is empty. */
  function Failed(message: string): (r: Response)
    ensures !r.success && r.status == 500 && r.message != ""
  {
    Response(false, 500, if message == "" then GenericFailure else message, None)
  }

  /** An entry of `processedImages`. */
  datatype Processed = Processed(name: string, data: Bytes, mimeType: string, originalSize: nat, compressedSize: nat)

  /** An entry of `analysisResults`. */
  datatype Analysed = Analysed(
    id: string, name: string, data: Bytes, mimeType: string, size: nat,
    labels: seq<string>, faces: seq<Rekognition.FaceDetail>)

  /**
   * The compression loop's body: the compressed bytes, under the source's name and MIME type,
   * with the download's length as original size; an input of at most 40 MiB passes unchanged.
   */
  function Process(image: GoogleDrive.ImageFile, codec: Compression.Codec): (r: Processed)
    ensures r.name == image.name && r.mimeType == image.mimeType
    ensures r.originalSize == |image.data| && r.compressedSize == |r.data|
    ensures |image.data| <= Compression.SizeThreshold ==> r.data == image.data
  {
    Compression.ResultFields(image.data, image.mimeType, codec);
    var c := Compression.Compress(image.data, image.mimeType, codec).result;
    Processed(image.name, c.data, image.mimeType, c.originalSize, c.compressedSize)
  }

  /**
   * The analysis loop's body for the image given the id `id`: the compressed bytes and their
   * size, with the labels and faces detected on those bytes; the indexed face ids are dropped.
   */
  function Analyse(p: Processed, id: string, endpoint: Rekognition.Endpoint, collectionId: string): (r: Analysed)
    ensures r.id == id && r.name == p.name && r.data == p.data && r.mimeType == p.mimeType && r.size == p.compressedSize
    ensures r.labels == Rekognition.DetectLabels(endpoint, p.data) && r.faces == Rekognition.DetectFaces(endpoint, p.data)
  {
    var a := Rekognition.AnalyzeImage(endpoint, collectionId, p.data, id);
    Analysed(id, p.name, p.data, p.mimeType, p.compressedSize, a.labels, a.faces)
  }

  /** The partial record passed to the upload: id, labels and faces, and no `metadata` overrides. */
  function Partial(a: Analysed): (r: S3.PartialMetadata)
    ensures r.id == Some(a.id) && r.labels == Some(a.labels) && r.faces == Some(a.faces)
    ensures r.metadata.None?
  {
    S3.PartialMetadata(Some(a.id), Some(a.labels), Some(a.faces), None)
  }

  /** `processedImages` after the compression loop. */
  function ProcessAll(images: seq<GoogleDrive.ImageFile>, codec: Compression.Codec): (r: seq<Processed>)
    ensures |r| == |images| && forall i | 0 <= i < |images| :: r[i] == Process(images[i], codec)
  {
    seq(|images|, i requires 0 <= i < |images| => Process(images[i], codec))
  }

  /** `analysisResults` after the analysis loop: the `i`-th image gets the `i`-th fresh id. */
  function AnalyseAll(processed: seq<Processed>, uuid: nat -> string, endpoint: Rekognition.Endpoint, collectionId: string)
    : (r: seq<Analysed>)
    ensures |r| == |processed|
    ensures forall i | 0 <= i < |processed| :: r[i] == Analyse(processed[i], uuid(i), endpoint, collectionId)
  {
    seq(|processed|, i requires 0 <= i < |processed| => Analyse(processed[i], uuid(i), endpoint, collectionId))
  }

  /** The storage loop: each item uploaded in order, stopping at the first failure. */
  function StoreAll(
    objects: map<string, S3.StoredObject>, refused: set<string>, presign: (string, nat) -> Option<string>,
    bucketName: string, items: seq<Analysed>, clock: nat -> nat, iso: nat -> string): (s: S3.Step<seq<S3.ImageMetadata>>)
    ensures objects.Keys <= s.objects.Keys
    ensures s.result.Ok? ==> |s.result.value| == |items|
  {
    if items == [] then S3.Step(Ok([]), objects)
    else
      var n := |items| - 1;
      var prev := StoreAll(objects, refused, presign, bucketName, items[..n], clock, iso);
      if prev.result.Err? then prev
      else
        var s := StoreItem(prev.objects, refused, presign, bucketName, items[n], clock(n), iso(n));
        if s.result.Err? then S3.Step(Err(s.result.message), s.objects)
        else S3.Step(Ok(prev.result.value + [s.result.value]), s.objects)
  }

  datatype Outcome = Outcome(response: Response, objects: map<string, S3.StoredObject>)

  /** What the route does once the services are ready and the collection initialised. */
  function Pipeline(
    url: string, drive: GoogleDrive.Drive, ghost rank: string -> nat, codec: Compression.Codec,
    endpoint: Rekognition.Endpoint, collectionId: string, refused: set<string>,
    presign: (string, nat) -> Option<string>, bucketName: string, objects: map<string, S3.StoredObject>,
    uuid: nat -> string, clock: nat -> nat, iso: nat -> string): (r: Outcome)
    requires GoogleDrive.Ranked(drive.listing, rank)
    ensures r.response.success <==> r.response.status == 200
    ensures objects.Keys <= r.objects.Keys
  {
    match GoogleDrive.Fetch(url, drive, rank)
    case Err(e) => Outcome(Failed(e), objects)
    case Ok(images) =>
      if |images| == 0 then Outcome(NotFound, objects)
      else
        var analysed := AnalyseAll(ProcessAll(images, codec), uuid, endpoint, collectionId);
        var stored := StoreAll(objects, refused, presign, bucketName, analysed, clock, iso);
        if stored.result.Err? then Outcome(Failed(stored.result.message), stored.objects)
        else Outcome(Succeeded(|stored.result.value|), stored.objects)
  }

  // ---------------------------------------------------------------------------
  // Properties of the storage loop
  // ---------------------------------------------------------------------------

  /** The record stored for `item`, uploaded at time `stamp`. */
  predicate RecordFor(r: S3.ImageMetadata, item: Analysed, stamp: nat) {
    && r.id == (if item.id != "" then item.id else NatToString(stamp))
    && r.labels == item.labels && r.faces == item.faces
    && r.metadata.originalName == Some(item.name) && r.metadata.size == Some(|item.data|)
  }

  /** One pass of the storage loop: `item` uploaded with its id, labels and faces at time `stamp`. */
  function StoreItem(
    objects: map<string, S3.StoredObject>, refused: set<string>, presign: (string, nat) -> Option<string>,
    bucketName: string, item: Analysed, stamp: nat, nowIso: string): (s: S3.Step<S3.ImageMetadata>)
    ensures s.result.Ok? ==> RecordFor(s.result.value, item, stamp)
  {
    S3.UploadedRecord(objects, refused, presign, bucketName, item.data, item.name, item.mimeType, Partial(item), stamp, nowIso);
    S3.UploadWithMetadataStep(objects, refused, presign, bucketName, item.data, item.name, item.mimeType, Partial(item), stamp, nowIso)
  }

  /** `records` holds, position by position, the record stored for each of `items`. */
  predicate RecordsFor(records: seq<S3.ImageMetadata>, items: seq<Analysed>, clock: nat -> nat) {
    |records| == |items| && forall k | 0 <= k < |items| :: RecordFor(records[k], items[k], clock(k))
  }

  lemma RecordsForAppend(records: seq<S3.ImageMetadata>, items: seq<Analysed>, clock: nat -> nat, r: S3.ImageMetadata)
    requires items != []
    requires RecordsFor(records, items[..|items| - 1], clock)
    requires RecordFor(r, items[|items| - 1], clock(|items| - 1))
    ensures RecordsFor(records + [r], items, clock)
  {
    var n := |items| - 1;
    assert forall k | 0 <= k < n :: (records + [r])[k] == records[k] && items[..n][k] == items[k];
  }

  /** The storage loop's last pass, when every pass succeeds. */
  lemma StoreAllLast(
    objects: map<string, S3.StoredObject>, refused: set<string>, presign: (string, nat) -> Option<string>,
    bucketName: string, items: seq<Analysed>, clock: nat -> nat, iso: nat -> string)
    requires items != []
    requires StoreAll(objects, refused, presign, bucketName, items, clock, iso).result.Ok?
    ensures var n := |items| - 1;
      var prev := StoreAll(objects, refused, presign, bucketName, items[..n], clock, iso);
      var s := StoreItem(prev.objects, refused, presign, bucketName, items[n], clock(n), iso(n));
      && prev.result.Ok? && s.result.Ok?
      && StoreAll(objects, refused, presign, bucketName, items, clock, iso).result.value
         == prev.result.value + [s.result.value]
  {
  }

  /**
   * A completed storage loop returns one record per item, in order: the record carries the
   * item's id (its timestamp when the id is empty), labels, faces, name and stored byte count.
   */
  lemma {:induction false} StoredRecords(
    objects: map<string, S3.StoredObject>, refused: set<string>, presign: (string, nat) -> Option<string>,
    bucketName: string, items: seq<Analysed>, clock: nat -> nat, iso: nat -> string)
    ensures var s := StoreAll(objects, refused, presign, bucketName, items, clock, iso);
      s.result.Ok? ==> RecordsFor(s.result.value, items, clock)
  {
    if items != [] && StoreAll(objects, refused, presign, bucketName, items, clock, iso).result.Ok? {
      var n := |items| - 1;
      StoreAllLast(objects, refused, presign, bucketName, items, clock, iso);
      StoredRecords(objects, refused, presign, bucketName, items[..n], clock, iso);
      var prev := StoreAll(objects, refused, presign, bucketName, items[..n], clock, iso);
      var s := StoreItem(prev.objects, refused, presign, bucketName, items[n], clock(n), iso(n));
      RecordsForAppend(prev.result.value, items, clock, s.result.value);
    }
  }

  /** Stored objects are never removed: a failure leaves every earlier upload in place. */
  lemma {:induction false} EarlierWritesKept(
    objects: map<string, S3.StoredObject>, refused: set<string>, presign: (string, nat) -> Option<string>,
    bucketName: string, items: seq<Analysed>, clock: nat -> nat, iso: nat -> string, n: nat)
    requires n <= |items|
    decreases |items|
    ensures StoreAll(objects, refused, presign, bucketName, items[..n], clock, iso).objects.Keys
         <= StoreAll(objects, refused, presign, bucketName, items, clock, iso).objects.Keys
    ensures objects.Keys <= StoreAll(objects, refused, presign, bucketName, items, clock, iso).objects.Keys
  {
    if n == |items| {
      assert items[..n] == items;
      if items != [] {
        EarlierWritesKept(objects, refused, presign, bucketName, items[..|items| - 1], clock, iso, 0);
      }
    } else {
      var m := |items| - 1;
      assert items[..m][..n] == items[..n];
      EarlierWritesKept(objects, refused, presign, bucketName, items[..m], clock, iso, n);
    }
  }

  /** Once an upload fails, the loop has failed, whatever follows. */
  lemma {:induction false} StoreAbortPersists(
    objects: map<string, S3.StoredObject>, refused: set<string>, presign: (string, nat) -> Option<string>,
    bucketName: string, items: seq<Analysed>, clock: nat -> nat, iso: nat -> string, n: nat)
    requires n <= |items|
    requires StoreAll(objects, refused, presign, bucketName, items[..n], clock, iso).result.Err?
    decreases |items| - n
    ensures StoreAll(objects, refused, presign, bucketName, items, clock, iso)
         == StoreAll(objects, refused, presign, bucketName, items[..n], clock, iso)
  {
    if n < |items| {
      assert items[..n + 1][..n] == items[..n];
      StoreAbortPersists(objects, refused, presign, bucketName, items, clock, iso, n + 1);
    } else {
      assert items[..n] == items;
    }
  }

  // ---------------------------------------------------------------------------
  // Properties of the pipeline
  // ---------------------------------------------------------------------------

  /**
   * The outcomes: a fetch error is a 500 with its message and no write; an empty folder is a
   * 404, distinct from the 400 of a missing URL, with no write; success is a 200 whose count is
   * the number of fetched images; every other failure is a 500.
   */
  lemma PipelineOutcomes(
    url: string, drive: GoogleDrive.Drive, rank: string -> nat, codec: Compression.Codec,
    endpoint: Rekognition.Endpoint, collectionId: string, refused: set<string>,
    presign: (string, nat) -> Option<string>, bucketName: string, objects: map<string, S3.StoredObject>,
    uuid: nat -> string, clock: nat -> nat, iso: nat -> string)
    requires GoogleDrive.Ranked(drive.listing, rank)
    ensures var o := Pipeline(url, drive, rank, codec, endpoint, collectionId, refused, presign, bucketName, objects, uuid, clock, iso);
      var fetched := GoogleDrive.Fetch(url, drive, rank);
      && (fetched.Err? ==> o == Outcome(Failed(fetched.message), objects))
      && (fetched.Ok? && fetched.value == [] ==> o == Outcome(NotFound, objects) && NotFound != BadRequest)
      && (o.response.success ==> fetched.Ok? && o.response == Succeeded(|fetched.value|) && o.response.status == 200)
      && (!o.response.success ==> o.response.status == 500 || o.response == NotFound)
  {
    var o := Pipeline(url, drive, rank, codec, endpoint, collectionId, refused, presign, bucketName, objects, uuid, clock, iso);
    var fetched := GoogleDrive.Fetch(url, drive, rank);
    if fetched.Ok? && |fetched.value| > 0 {
      var images := fetched.value;
      StoredRecords(objects, refused, presign, bucketName, AnalyseAll(ProcessAll(images, codec), uuid, endpoint, collectionId), clock, iso);
    }
  }

  /**
   * On success each fetched image was compressed, analysed under the fresh id `uuid(i)` and
   * stored, in fetch order: the bytes analysed and stored are the compressed bytes, under the
   * source's name and MIME type, and the stored record carries the id `uuid(i)`.
   */
  lemma PipelineStores(
    url: string, drive: GoogleDrive.Drive, rank: string -> nat, codec: Compression.Codec,
    endpoint: Rekognition.Endpoint, collectionId: string, refused: set<string>,
    presign: (string, nat) -> Option<string>, bucketName: string, objects: map<string, S3.StoredObject>,
    uuid: nat -> string, clock: nat -> nat, iso: nat -> string)
    requires GoogleDrive.Ranked(drive.listing, rank)
    requires Pipeline(url, drive, rank, codec, endpoint, collectionId, refused, presign, bucketName, objects, uuid, clock, iso).response.success
    ensures var images := GoogleDrive.Fetch(url, drive, rank).value;
      var analysed := AnalyseAll(ProcessAll(images, codec), uuid, endpoint, collectionId);
      var stored := StoreAll(objects, refused, presign, bucketName, analysed, clock, iso);
      && stored.result.Ok? && |stored.result.value| == |images|
      && (forall i | 0 <= i < |images| ::
            && analysed[i].data == Compression.Compress(images[i].data, images[i].mimeType, codec).result.data
            && analysed[i].mimeType == images[i].mimeType && analysed[i].name == images[i].name
            && (uuid(i) != "" ==> stored.result.value[i].id == uuid(i)))
  {
    var images := GoogleDrive.Fetch(url, drive, rank).value;
    var analysed := AnalyseAll(ProcessAll(images, codec), uuid, endpoint, collectionId);
    StoredRecords(objects, refused, presign, bucketName, analysed, clock, iso);
  }

  /** With distinct non-empty fresh ids, the stored records have distinct ids, hence distinct keys. */
  lemma DistinctRecordIds(
    objects: map<string, S3.StoredObject>, refused: set<string>, presign: (string, nat) -> Option<string>,
    bucketName: string, items: seq<Analysed>, clock: nat -> nat, iso: nat -> string)
    requires forall i, j | 0 <= i < j < |items| :: items[i].id != items[j].id
    requires forall i | 0 <= i < |items| :: items[i].id != ""
    ensures var s := StoreAll(objects, refused, presign, bucketName, items, clock, iso);
      s.result.Ok? ==> |s.result.value| == |items| && forall i, j | 0 <= i < j < |items| ::
        s.result.value[i].id != s.result.value[j].id && S3.MetadataKey(s.result.value[i].id) != S3.MetadataKey(s.result.value[j].id)
  {
    StoredRecords(objects, refused, presign, bucketName, items, clock, iso);
    var s := StoreAll(objects, refused, presign, bucketName, items, clock, iso);
    if s.result.Ok? {
      forall i, j | 0 <= i < j < |items|
        ensures S3.MetadataKey(s.result.value[i].id) != S3.MetadataKey(s.result.value[j].id)
      {
        assert RecordFor(s.result.value[i], items[i], clock(i)) && RecordFor(s.result.value[j], items[j], clock(j));
        if S3.MetadataKey(s.result.value[i].id) == S3.MetadataKey(s.result.value[j].id) {
          S3.MetadataKeyInjective(s.result.value[i].id, s.result.value[j].id);
        }
      }
    }
  }

  /** The ids the analysis loop hands out are the supply's first ones, so a fresh supply gives distinct ids. */
  lemma AnalysedIds(processed: seq<Processed>, uuid: nat -> string, endpoint: Rekognition.Endpoint, collectionId: string)
    requires forall i, j | 0 <= i < j < |processed| :: uuid(i) != uuid(j)
    ensures var analysed := AnalyseAll(processed, uuid, endpoint, collectionId);
      forall i, j | 0 <= i < j < |analysed| :: analysed[i].id != analysed[j].id
  {
  }

  // ---------------------------------------------------------------------------
  // The handler
  // ---------------------------------------------------------------------------

  /** The compression loop. */
  method CompressLoop(images: seq<GoogleDrive.ImageFile>, compression: Compression.ImageCompressionService)
    returns (processedImages: seq<Processed>)
    ensures processedImages == ProcessAll(images, compression.codec)
  {
    processedImages := [];
    for i := 0 to |images|
      invariant |processedImages| == i
      invariant forall k | 0 <= k < i :: processedImages[k] == Process(images[k], compression.codec)
    {
      var result, _ := Compression.CompressImage(images[i].data, images[i].mimeType, compression.codec);
      processedImages := processedImages
        + [Processed(images[i].name, result.data, images[i].mimeType, result.originalSize, result.compressedSize)];
    }
  }

  /** The analysis loop: one fresh id per image, taken in order from the supply. */
  method AnalysisLoop(processedImages: seq<Processed>, rekognition: Rekognition.RekognitionService, uuid: nat -> string)
    returns (analysisResults: seq<Analysed>)
    ensures analysisResults == AnalyseAll(processedImages, uuid, rekognition.endpoint, rekognition.collectionId)
  {
    analysisResults := [];
    for i := 0 to |processedImages|
      invariant |analysisResults| == i
      invariant forall k | 0 <= k < i ::
        analysisResults[k] == Analyse(processedImages[k], uuid(k), rekognition.endpoint, rekognition.collectionId)
    {
      var image := processedImages[i];
      var imageId := uuid(i);
      var analysis := Rekognition.AnalyzeImage(rekognition.endpoint, rekognition.collectionId, image.data, imageId);
      analysisResults := analysisResults
        + [Analysed(imageId, image.name, image.data, image.mimeType, image.compressedSize, analysis.labels, analysis.faces)];
    }
  }

  /** The storage loop; the first failed upload ends it. */
  method StorageLoop(analysisResults: seq<Analysed>, s3: S3.S3Service, clock: nat -> nat, iso: nat -> string)
    returns (r: Result<seq<S3.ImageMetadata>>)
    modifies s3
    ensures S3.Step(r, s3.objects) == StoreAll(old(s3.objects), s3.refused, s3.presign, s3.bucketName, analysisResults, clock, iso)
  {
    ghost var start := s3.objects;
    var uploadedImages: seq<S3.ImageMetadata> := [];
    for k := 0 to |analysisResults|
      invariant S3.Step(Ok(uploadedImages), s3.objects)
        == StoreAll(start, s3.refused, s3.presign, s3.bucketName, analysisResults[..k], clock, iso)
    {
      assert analysisResults[..k + 1][..k] == analysisResults[..k];
      var result := analysisResults[k];
      var metadata := s3.UploadImageWithMetadata(result.data, result.name, result.mimeType, Partial(result), clock(k), iso(k));
      if metadata.Err? {
        StoreAbortPersists(start, s3.refused, s3.presign, s3.bucketName, analysisResults, clock, iso, k + 1);
        return Err(metadata.message);
      }
      uploadedImages := uploadedImages + [metadata.value];
    }
    assert analysisResults[..|analysisResults|] == analysisResults;
    r := Ok(uploadedImages);
  }

  /** Everything after the services are built and the collection initialised. */
  method RunPipeline(
    url: string, drive: GoogleDrive.GoogleDriveService, compression: Compression.ImageCompressionService,
    rekognition: Rekognition.RekognitionService, s3: S3.S3Service,
    uuid: nat -> string, clock: nat -> nat, iso: nat -> string) returns (response: Response)
    requires GoogleDrive.Ranked(drive.remote.listing, drive.rank)
    modifies s3
    ensures Outcome(response, s3.objects) == Pipeline(
      url, drive.remote, drive.rank, compression.codec, rekognition.endpoint, rekognition.collectionId,
      s3.refused, s3.presign, s3.bucketName, old(s3.objects), uuid, clock, iso)
  {
    var fetched := GoogleDrive.FetchImagesFromFolder(url, drive.remote, drive.rank);
    if fetched.Err? {
      return Failed(fetched.message);
    }
    var images := fetched.value;
    if |images| == 0 {
      return NotFound;
    }
    var processedImages := CompressLoop(images, compression);
    var analysisResults := AnalysisLoop(processedImages, rekognition, uuid);
    var uploadedImages := StorageLoop(analysisResults, s3, clock, iso);
    if uploadedImages.Err? {
      return Failed(uploadedImages.message);
    }
    response := Succeeded(|uploadedImages.value|);
  }

  /** The URL the request carries, when it carries a non-empty one. */
  predicate HasUrl(request: Result<Option<string>>) {
    request.Ok? && request.value.Some? && request.value.value != ""
  }

  /**
   * `POST`. `request` is the parsed body's `folderUrl` (`Err` when the body is not JSON);
   * `listOk` and `createOk` are the outcomes of the collection listing and creation.
   */
  method Post(
    request: Result<Option<string>>, cfg: Config.Services, listOk: bool, createOk: bool,
    uuid: nat -> string, clock: nat -> nat, iso: nat -> string) returns (response: Response)
    requires cfg.Valid()
    modifies cfg, cfg.rekognitionService, cfg.s3Service
    ensures cfg.Valid()
    ensures request.Err? ==> response == Failed(request.message)
    ensures request.Ok? && !HasUrl(request) ==> response == BadRequest
    ensures !HasUrl(request) ==>
      && cfg.googleDriveService == old(cfg.googleDriveService) && cfg.compressionService == old(cfg.compressionService)
      && cfg.rekognitionService == old(cfg.rekognitionService) && cfg.s3Service == old(cfg.s3Service)
    ensures HasUrl(request) && !Config.IsSet(cfg.env, Config.DriveKeyVar) ==>
      response == Failed(Config.MissingVariable + Config.DriveKeyVar)
    ensures HasUrl(request) && Config.IsSet(cfg.env, Config.DriveKeyVar) && !Config.IsSet(cfg.env, Config.BucketVar) ==>
      response == Failed(Config.MissingVariable + Config.BucketVar)
    ensures HasUrl(request) && Config.IsSet(cfg.env, Config.DriveKeyVar) && Config.IsSet(cfg.env, Config.BucketVar) ==>
      && cfg.rekognitionService != null && cfg.s3Service != null
      && cfg.rekognitionService.collections == Rekognition.InitCollection(
           old(if cfg.rekognitionService == null then cfg.collections else cfg.rekognitionService.collections),
           Config.CollectionId(cfg.env), listOk, createOk).collections
      && Outcome(response, cfg.s3Service.objects) == Pipeline(
           request.value.value, cfg.drive, cfg.driveRank, cfg.codec, cfg.endpoint, Config.CollectionId(cfg.env),
           cfg.refused, cfg.presign, cfg.env[Config.BucketVar],
           old(if cfg.s3Service == null then cfg.bucket else cfg.s3Service.objects), uuid, clock, iso)
  {
    if request.Err? {
      return Failed(request.message);
    }
    var folderUrl := request.value;
    if folderUrl.None? || folderUrl.value == "" {
      return BadRequest;
    }
    var driveService := cfg.GetGoogleDriveService();
    if driveService.Err? {
      return Failed(driveService.message);
    }
    var compressionService := cfg.GetCompressionService();
    var rekognitionService := cfg.GetRekognitionService();
    var s3Service := cfg.GetS3Service();
    if s3Service.Err? {
      return Failed(s3Service.message);
    }
    rekognitionService.InitializeFaceCollection(listOk, createOk);
    response := RunPipeline(
      folderUrl.value, driveService.value, compressionService, rekognitionService, s3Service.value, uuid, clock, iso);
  }
}
