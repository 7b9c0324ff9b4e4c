/**
 * `GET /api/images`: the stored records, or the three sample records when the store is not
 * configured, holds nothing or fails.
 */
module ImagesRoute {
  import opened Base
  import Rekognition
  import S3
  import Config

  const AccessKeyVar: string := "AWS_ACCESS_KEY_ID"
  const SecretKeyVar: string := "AWS_SECRET_ACCESS_KEY"

  function Face(top: real, left: real, width: real, height: real, low: int, high: int,
                emotion: string, confidence: int, gender: string): Rekognition.FaceDetail {
    Rekognition.FaceDetail(
      Rekognition.BoundingBox(top, left, width, height), Rekognition.AgeRange(low, high),
      [Rekognition.Emotion(emotion, confidence)], gender, None)
  }

  /** The sample images are Unsplash photos, cropped to 800 by 800. */
  const PhotoPrefix: string := "https://images.unsplash.com/photo-"
  const CropQuery: string := "?w=800&h=800&fit=crop"

  function Sample(id: string, photo: string, labels: seq<string>, faces: seq<Rekognition.FaceDetail>, loadedAt: string): S3.ImageMetadata {
    S3.ImageMetadata(id, PhotoPrefix + photo + CropQuery, labels, faces, S3.RecordInfo(loadedAt, None, None))
  }

  /**
   * `Object.values(mockImageStore)`: the sample records in key order; `loadedAt` is the time
   * the module was loaded. The route stamps each of the three records with a clock reading of
   * its own, taken one after another while the module loads; one `loadedAt` stands for all
   * three, so the model does not distinguish readings that differ by those few instants.
   */
  function MockImages(loadedAt: string): (r: seq<S3.ImageMetadata>)
    ensures |r| == 3 && r[0].id == "1" && r[1].id == "2" && r[2].id == "3"
  {
    [ Sample("1", "1542744173-8e7e53415bb0",
        ["Meeting", "Office", "Business", "People", "Conference"],
        [ Face(0.1, 0.2, 0.3, 0.4, 25, 35, "HAPPY", 95, "Male"),
          Face(0.15, 0.55, 0.25, 0.35, 30, 40, "NEUTRAL", 88, "Female") ],
        loadedAt),
      Sample("2", "1522071820081-009f0129c71c",
        ["Technology", "Workspace", "Computer", "Modern", "Office"],
        [ Face(0.2, 0.3, 0.35, 0.45, 20, 30, "FOCUSED", 92, "Male") ],
        loadedAt),
      Sample("3", "1521737711867-e3b97375f902",
        ["Team", "Collaboration", "Brainstorm", "Creative", "People"],
        [ Face(0.1, 0.1, 0.3, 0.4, 28, 38, "HAPPY", 90, "Female"),
          Face(0.12, 0.45, 0.28, 0.38, 32, 42, "HAPPY", 87, "Male"),
          Face(0.15, 0.75, 0.2, 0.35, 25, 35, "NEUTRAL", 85, "Female") ],
        loadedAt) ]
  }

  /**
   * `hasAwsConfig`: the bucket name and both credentials are set and non-empty. So a configured
   * route's store client can always be built: reading the bucket name does not throw.
   */
  predicate HasAwsConfig(env: Config.Env)
    ensures HasAwsConfig(env) ==> Config.GetEnvVar(env, Config.BucketVar, true).Ok?
  {
    Config.IsSet(env, Config.BucketVar) && Config.IsSet(env, AccessKeyVar) && Config.IsSet(env, SecretKeyVar)
  }

  /**
   * `GET`: without configuration the sample records, without consulting the store; otherwise the
   * store's listing (`listing` is what its ListObjectsV2 call returns), unless that is empty.
   * The gallery therefore never receives an empty list.
   */
  function Get(env: Config.Env, objects: map<string, S3.StoredObject>, listing: Option<seq<string>>, loadedAt: string)
    : (r: seq<S3.ImageMetadata>)
    requires listing.Some? ==> S3.MetadataPage(objects, listing.value)
    ensures !HasAwsConfig(env) ==> r == MockImages(loadedAt)
    ensures HasAwsConfig(env) && S3.ListAll(objects, listing) == [] ==> r == MockImages(loadedAt)
    ensures HasAwsConfig(env) && S3.ListAll(objects, listing) != [] ==> r == S3.ListAll(objects, listing)
    ensures r != []
  {
    if !HasAwsConfig(env) then MockImages(loadedAt)
    else
      var images := S3.ListAll(objects, listing);
      if |images| == 0 then MockImages(loadedAt) else images
  }

  /** A failed store listing also yields the sample records. */
  lemma ListingFailureGivesMock(env: Config.Env, objects: map<string, S3.StoredObject>, loadedAt: string)
    ensures Get(env, objects, None, loadedAt) == MockImages(loadedAt)
  {
  }
}
