/**
 * Service configuration: environment variables and the four lazily built service singletons.
 *
 * `process.env` is the `env` map. The external systems a freshly built service connects to
 * (the Drive, the codec library, the Rekognition endpoint and account, the bucket) are the
 * constant fields of `Services`.
 */
module Config {
  import opened Base
  import GoogleDrive
  import Compression
  import S3
  import Rekognition

  type Env = map<string, string>

  const MissingVariable: string := "Missing required environment variable: "
  const DriveKeyVar: string := "GOOGLE_DRIVE_API_KEY"
  const RegionVar: string := "AWS_REGION"
  const BucketVar: string := "AWS_S3_BUCKET_NAME"
  const RekognitionRegionVar: string := "AWS_REKOGNITION_REGION"
  const CollectionVar: string := "AWS_REKOGNITION_COLLECTION_ID"
  const DefaultS3Region: string := "us-east-1"
  const DefaultRekognitionRegion: string := "ap-southeast-1"

  /**
   * `getEnvVar`: fails exactly when the variable is required and missing or empty; otherwise
   * its value, or `""` when it is absent.
   */
  function GetEnvVar(env: Env, key: string, required: bool): (r: Result<string>)
    ensures r.Err? <==> required && (key !in env || env[key] == "")
    ensures r.Err? ==> r.message == MissingVariable + key
    ensures r.Ok? && key in env ==> r.value == env[key]
    ensures r.Ok? && key !in env ==> r.value == ""
  {
    var value := if key in env then env[key] else "";
    if required && value == "" then Err(MissingVariable + key) else Ok(value)
  }

  /** `getEnvVar(key, false)`, which cannot fail. */
  function Optional(env: Env, key: string): string {
    GetEnvVar(env, key, false).value
  }

  /** JavaScript's `a || b` on strings. */
  function OrElse(a: string, b: string): string {
    if a == "" then b else a
  }

  /** The S3 region is `AWS_REGION` when set, else `us-east-1`. */
  function S3Region(env: Env): (r: string)
    ensures IsSet(env, RegionVar) ==> r == env[RegionVar]
    ensures !IsSet(env, RegionVar) ==> r == DefaultS3Region
  {
    OrElse(Optional(env, RegionVar), DefaultS3Region)
  }

  /** The Rekognition region falls back from `AWS_REKOGNITION_REGION` to `AWS_REGION` to `ap-southeast-1`. */
  function RekognitionRegion(env: Env): (r: string)
    ensures IsSet(env, RekognitionRegionVar) ==> r == env[RekognitionRegionVar]
    ensures !IsSet(env, RekognitionRegionVar) && IsSet(env, RegionVar) ==> r == env[RegionVar]
    ensures !IsSet(env, RekognitionRegionVar) && !IsSet(env, RegionVar) ==> r == DefaultRekognitionRegion
    ensures r != ""
  {
    OrElse(Optional(env, RekognitionRegionVar), OrElse(Optional(env, RegionVar), DefaultRekognitionRegion))
  }

  /** The collection id is `AWS_REKOGNITION_COLLECTION_ID` when set, else `faces-collection`; never empty. */
  function CollectionId(env: Env): (r: string)
    ensures IsSet(env, CollectionVar) ==> r == env[CollectionVar]
    ensures !IsSet(env, CollectionVar) ==> r == Rekognition.DefaultCollectionId
    ensures r != ""
  {
    OrElse(Optional(env, CollectionVar), Rekognition.DefaultCollectionId)
  }

  /** A variable that is set to a non-empty value. */
  predicate IsSet(env: Env, key: string) {
    key in env && env[key] != ""
  }

  class Services {
    const env: Env
    const drive: GoogleDrive.Drive
    ghost const driveRank: string -> nat
    const codec: Compression.Codec
    const endpoint: Rekognition.Endpoint
    const collections: set<string>
    const refused: set<string>
    const presign: (string, nat) -> Option<string>
    const bucket: map<string, S3.StoredObject>

    var googleDriveService: GoogleDrive.GoogleDriveService?
    var compressionService: Compression.ImageCompressionService?
    var s3Service: S3.S3Service?
    var rekognitionService: Rekognition.RekognitionService?

    /** Every built service was built from this configuration. */
    ghost predicate Valid()
      reads this
    {
      && GoogleDrive.Ranked(drive.listing, driveRank)
      && (googleDriveService != null ==>
            && googleDriveService.remote == drive && googleDriveService.rank == driveRank
            && IsSet(env, DriveKeyVar) && googleDriveService.apiKey == env[DriveKeyVar])
      && (compressionService != null ==> compressionService.codec == codec)
      && (s3Service != null ==>
            && s3Service.region == S3Region(env) && IsSet(env, BucketVar) && s3Service.bucketName == env[BucketVar]
            && s3Service.refused == refused && s3Service.presign == presign)
      && (rekognitionService != null ==>
            && rekognitionService.region == RekognitionRegion(env)
            && rekognitionService.collectionId == CollectionId(env) && rekognitionService.endpoint == endpoint)
    }

    constructor (env: Env, drive: GoogleDrive.Drive, ghost driveRank: string -> nat, codec: Compression.Codec,
                 endpoint: Rekognition.Endpoint, collections: set<string>, refused: set<string>,
                 presign: (string, nat) -> Option<string>, bucket: map<string, S3.StoredObject>)
      requires GoogleDrive.Ranked(drive.listing, driveRank)
      ensures Valid()
      ensures this.env == env && this.drive == drive && this.driveRank == driveRank && this.codec == codec
      ensures this.endpoint == endpoint && this.collections == collections && this.refused == refused
      ensures this.presign == presign && this.bucket == bucket
      ensures googleDriveService == null && compressionService == null && s3Service == null && rekognitionService == null
    {
      this.env := env;
      this.drive := drive;
      this.driveRank := driveRank;
      this.codec := codec;
      this.endpoint := endpoint;
      this.collections := collections;
      this.refused := refused;
      this.presign := presign;
      this.bucket := bucket;
      googleDriveService := null;
      compressionService := null;
      s3Service := null;
      rekognitionService := null;
    }

    /** `getGoogleDriveService`: built once, from the required API key. */
    method GetGoogleDriveService() returns (r: Result<GoogleDrive.GoogleDriveService>)
      requires Valid()
      modifies this
      ensures Valid()
      ensures compressionService == old(compressionService) && s3Service == old(s3Service)
      ensures rekognitionService == old(rekognitionService)
      ensures old(googleDriveService) != null ==> r == Ok(old(googleDriveService)) && googleDriveService == old(googleDriveService)
      ensures old(googleDriveService) == null ==> (r.Err? <==> !IsSet(env, DriveKeyVar))
      ensures r.Err? ==> r.message == MissingVariable + DriveKeyVar && googleDriveService == null
      ensures old(googleDriveService) == null && r.Ok? ==>
        fresh(r.value) && googleDriveService == r.value && r.value.apiKey == env[DriveKeyVar]
      ensures r.Ok? ==> r.value == googleDriveService && r.value.remote == drive && r.value.rank == driveRank
    {
      if googleDriveService == null {
        var apiKey := GetEnvVar(env, DriveKeyVar, true);
        if apiKey.Err? {
          return Err(apiKey.message);
        }
        googleDriveService := new GoogleDrive.GoogleDriveService(apiKey.value, drive, driveRank);
      }
      r := Ok(googleDriveService);
    }

    /** `getCompressionService`: built once; it cannot fail. */
    method GetCompressionService() returns (r: Compression.ImageCompressionService)
      requires Valid()
      modifies this
      ensures Valid()
      ensures googleDriveService == old(googleDriveService) && s3Service == old(s3Service)
      ensures rekognitionService == old(rekognitionService)
      ensures old(compressionService) != null ==> r == old(compressionService)
      ensures old(compressionService) == null ==> fresh(r)
      ensures compressionService == r && r.codec == codec
    {
      if compressionService == null {
        compressionService := new Compression.ImageCompressionService(codec);
      }
      r := compressionService;
    }

    /** `getS3Service`: built once; the bucket name is required, the region falls back. */
    method GetS3Service() returns (r: Result<S3.S3Service>)
      requires Valid()
      modifies this
      ensures Valid()
      ensures googleDriveService == old(googleDriveService) && compressionService == old(compressionService)
      ensures rekognitionService == old(rekognitionService)
      ensures old(s3Service) != null ==> r == Ok(old(s3Service)) && s3Service == old(s3Service)
      ensures old(s3Service) == null ==> (r.Err? <==> !IsSet(env, BucketVar))
      ensures r.Err? ==> r.message == MissingVariable + BucketVar && s3Service == null
      ensures old(s3Service) == null && r.Ok? ==>
        fresh(r.value) && s3Service == r.value && r.value.objects == bucket
      ensures r.Ok? ==> r.value == s3Service
    {
      if s3Service == null {
        var region := OrElse(Optional(env, RegionVar), DefaultS3Region);
        var bucketName := GetEnvVar(env, BucketVar, true);
        if bucketName.Err? {
          return Err(bucketName.message);
        }
        s3Service := new S3.S3Service(region, bucketName.value, refused, presign, bucket);
      }
      r := Ok(s3Service);
    }

    /** `getRekognitionService`: built once; region and collection id fall back, so it cannot fail. */
    method GetRekognitionService() returns (r: Rekognition.RekognitionService)
      requires Valid()
      modifies this
      ensures Valid()
      ensures googleDriveService == old(googleDriveService) && compressionService == old(compressionService)
      ensures s3Service == old(s3Service)
      ensures old(rekognitionService) != null ==> r == old(rekognitionService)
      ensures old(rekognitionService) == null ==> fresh(r) && r.collections == collections && r.createRequests == 0
      ensures rekognitionService == r
    {
      if rekognitionService == null {
        var region := OrElse(Optional(env, RekognitionRegionVar), OrElse(Optional(env, RegionVar), DefaultRekognitionRegion));
        var collectionId := OrElse(Optional(env, CollectionVar), Rekognition.DefaultCollectionId);
        rekognitionService := new Rekognition.RekognitionService(region, collectionId, endpoint, collections);
      }
      r := rekognitionService;
    }
  }
}
