/**
 * The image analyser (`RekognitionService`): shapes the replies of DetectLabels, DetectFaces
 * and IndexFaces into the record the gallery stores, swallowing every failure into an empty
 * list, and creates the face collection when it is missing.
 *
 * Each SDK call is an oracle from its request to a `Reply`; `Failed` is a rejected promise.
 * Absent response fields are `None`. Emotion confidences are integers: the rounding the source
 * applies after sorting is not modelled (rounding is monotone, so the order is the same).
 */
module Rekognition {
  import opened Base

  const MaxLabels: nat := 10
  const MinConfidence: nat := 70
  const MaxIndexedFaces: nat := 10
  const AllAttributes: seq<string> := ["ALL"]
  const AutoQualityFilter: string := "AUTO"
  const DefaultCollectionId: string := "faces-collection"
  const UnknownGender: string := "Unknown"
  const UnknownEmotion: string := "UNKNOWN"
  const DefaultAgeHigh: int := 100

  datatype Reply<T> = Failed | Replied(body: T)

  // ---------------------------------------------------------------------------
  // Requests and SDK response shapes
  // ---------------------------------------------------------------------------

  datatype LabelsRequest = LabelsRequest(image: Bytes, maxLabels: nat, minConfidence: nat)
  datatype FacesRequest = FacesRequest(image: Bytes, attributes: seq<string>)
  datatype IndexRequest = IndexRequest(
    collectionId: string, image: Bytes, externalImageId: string,
    attributes: seq<string>, maxFaces: nat, qualityFilter: string)

  datatype SdkLabel = SdkLabel(name: Option<string>)
  datatype SdkBox = SdkBox(top: Option<real>, left: Option<real>, width: Option<real>, height: Option<real>)
  datatype SdkAgeRange = SdkAgeRange(low: Option<int>, high: Option<int>)
  datatype SdkEmotion = SdkEmotion(kind: Option<string>, confidence: Option<int>)
  /** `gender` is `Gender?.Value`: absent when either the attribute or its value is. */
  datatype SdkFace = SdkFace(
    box: Option<SdkBox>, ageRange: Option<SdkAgeRange>, emotions: Option<seq<SdkEmotion>>,
    gender: Option<string>, confidence: Option<real>)
  /** `faceId` is `Face?.FaceId`. */
  datatype SdkFaceRecord = SdkFaceRecord(faceId: Option<string>)

  /** The Rekognition endpoint a client talks to. */
  datatype Endpoint = Endpoint(
    detectLabels: LabelsRequest -> Reply<Option<seq<SdkLabel>>>,
    detectFaces: FacesRequest -> Reply<Option<seq<SdkFace>>>,
    indexFaces: IndexRequest -> Reply<Option<seq<SdkFaceRecord>>>)

  // ---------------------------------------------------------------------------
  // Result shapes
  // ---------------------------------------------------------------------------

  datatype BoundingBox = BoundingBox(top: real, left: real, width: real, height: real)
  datatype AgeRange = AgeRange(low: int, high: int)
  datatype Emotion = Emotion(kind: string, confidence: int)
  datatype FaceDetail = FaceDetail(
    boundingBox: BoundingBox, ageRange: AgeRange, emotions: seq<Emotion>,
    gender: string, confidence: Option<real>)
  datatype Analysis = Analysis(labels: seq<string>, faces: seq<FaceDetail>, faceIds: seq<string>)
  datatype ImageInput = ImageInput(buffer: Bytes, id: string)
  datatype TaggedAnalysis = TaggedAnalysis(analysis: Analysis, id: string)

  /** JavaScript's `x || fallback` on a string: a missing or empty string gives the fallback. */
  function TextOr(x: Option<string>, fallback: string): (r: string)
    ensures x.Some? && x.value != "" ==> r == x.value
    ensures x.None? || x.value == "" ==> r == fallback
  {
    if x.None? || x.value == "" then fallback else x.value
  }

  // ---------------------------------------------------------------------------
  // detectLabels
  // ---------------------------------------------------------------------------

  /** `Labels.map(label => label.Name || '')`. */
  function LabelNames(labels: seq<SdkLabel>): (r: seq<string>)
    ensures |r| == |labels|
    ensures forall i | 0 <= i < |labels| :: labels[i].name.Some? ==> r[i] == labels[i].name.value
    ensures forall i | 0 <= i < |labels| :: labels[i].name.None? ==> r[i] == ""
  {
    if labels == [] then [] else [TextOr(labels[0].name, "")] + LabelNames(labels[1..])
  }

  /** The reply of DetectLabels, shaped: names in reply order, `[]` on failure or without a list. */
  function ShapeLabels(reply: Reply<Option<seq<SdkLabel>>>): (r: seq<string>)
    ensures reply.Failed? || reply.body.None? ==> r == []
    ensures reply.Replied? && reply.body.Some? ==> r == LabelNames(reply.body.value)
  {
    match reply
    case Failed => []
    case Replied(labels) => if labels.Some? then LabelNames(labels.value) else []
  }

  /** `detectLabels`: at most 10 labels of confidence at least 70 are requested. */
  function DetectLabels(endpoint: Endpoint, image: Bytes): (r: seq<string>)
    ensures var reply := endpoint.detectLabels(LabelsRequest(image, MaxLabels, MinConfidence));
      && (reply.Failed? ==> r == [])
      && (reply.Replied? && reply.body.Some? ==> |r| == |reply.body.value|)
  {
    ShapeLabels(endpoint.detectLabels(LabelsRequest(image, MaxLabels, MinConfidence)))
  }

  // ---------------------------------------------------------------------------
  // detectFaces
  // ---------------------------------------------------------------------------

  /** `(Confidence || 0)`, the sort key: a missing confidence sorts as 0. */
  function Key(e: SdkEmotion): (k: int)
    ensures e.confidence.Some? ==> k == e.confidence.value
    ensures e.confidence.None? ==> k == 0
  {
    e.confidence.GetOr(0)
  }

  predicate NonIncreasing(s: seq<SdkEmotion>) {
    forall i, j | 0 <= i < j < |s| :: Key(s[i]) >= Key(s[j])
  }

  /** Inserts `e` before the first element whose key is not above its own. */
  function Insert(e: SdkEmotion, s: seq<SdkEmotion>): (r: seq<SdkEmotion>)
    ensures multiset(r) == multiset(s) + multiset{e}
    ensures |r| == |s| + 1 && (r[0] == e || (s != [] && r[0] == s[0]))
  {
    if s == [] || Key(s[0]) <= Key(e) then [e] + s
    else
      var rest := Insert(e, s[1..]);
      assert s == [s[0]] + s[1..];
      [s[0]] + rest
  }

  /** Inserting into a sequence ordered by non-increasing confidence keeps it so ordered. */
  lemma {:induction false} InsertKeepsOrder(e: SdkEmotion, s: seq<SdkEmotion>)
    requires NonIncreasing(s)
    ensures NonIncreasing(Insert(e, s))
  {
    if s == [] || Key(s[0]) <= Key(e) {
      PrependNonIncreasing(e, s);
    } else {
      TailNonIncreasing(s);
      InsertKeepsOrder(e, s[1..]);
      var rest := Insert(e, s[1..]);
      assert Key(rest[0]) <= Key(s[0]) by {
        if rest[0] != e { assert Key(s[0]) >= Key(s[1]); }
      }
      PrependNonIncreasing(s[0], rest);
    }
  }

  /** The tail of a non-increasing sequence is non-increasing. */
  lemma TailNonIncreasing(s: seq<SdkEmotion>)
    requires NonIncreasing(s) && s != []
    ensures NonIncreasing(s[1..])
  {
    forall i, j | 0 <= i < j < |s| - 1
      ensures Key(s[1..][i]) >= Key(s[1..][j])
    {
      assert Key(s[i + 1]) >= Key(s[j + 1]);
    }
  }

  /** An element whose key is at least that of a non-increasing sequence's head can go in front. */
  lemma PrependNonIncreasing(x: SdkEmotion, s: seq<SdkEmotion>)
    requires NonIncreasing(s)
    requires s != [] ==> Key(s[0]) <= Key(x)
    ensures NonIncreasing([x] + s)
  {
    var r := [x] + s;
    forall i, j | 0 <= i < j < |r|
      ensures Key(r[i]) >= Key(r[j])
    {
      if i == 0 && j > 1 {
        assert Key(s[0]) >= Key(s[j - 1]);
      }
    }
  }

  /**
   * `sort((a, b) => (b.Confidence || 0) - (a.Confidence || 0))`: non-increasing confidence and
   * a permutation of the input.
   */
  function SortByConfidence(s: seq<SdkEmotion>): (r: seq<SdkEmotion>)
    ensures NonIncreasing(r)
    ensures multiset(r) == multiset(s)
  {
    if s == [] then []
    else
      assert s == [s[0]] + s[1..];
      var sorted := SortByConfidence(s[1..]);
      InsertKeepsOrder(s[0], sorted);
      Insert(s[0], sorted)
  }

  /** `{ type: Type || 'UNKNOWN', confidence: Confidence || 0 }`. */
  function ShapeEmotion(e: SdkEmotion): (r: Emotion)
    ensures e.kind.Some? && e.kind.value != "" ==> r.kind == e.kind.value
    ensures e.kind.None? || e.kind.value == "" ==> r.kind == UnknownEmotion
    ensures r.kind != "" && r.confidence == Key(e)
  {
    Emotion(TextOr(e.kind, UnknownEmotion), Key(e))
  }

  function ShapeEmotions(s: seq<SdkEmotion>): (r: seq<Emotion>)
    ensures |r| == |s|
    ensures forall i | 0 <= i < |s| :: r[i] == ShapeEmotion(s[i])
  {
    if s == [] then [] else [ShapeEmotion(s[0])] + ShapeEmotions(s[1..])
  }

  /** `BoundingBox?.Top || 0` and likewise for the other three fields. */
  function ShapeBox(box: Option<SdkBox>): (r: BoundingBox)
    ensures box.None? ==> r == BoundingBox(0.0, 0.0, 0.0, 0.0)
    ensures box.Some? && box.value.top.Some? ==> r.top == box.value.top.value
    ensures box.Some? && box.value.left.Some? ==> r.left == box.value.left.value
    ensures box.Some? && box.value.width.Some? ==> r.width == box.value.width.value
    ensures box.Some? && box.value.height.Some? ==> r.height == box.value.height.value
    ensures box.Some? && box.value.top.None? ==> r.top == 0.0
    ensures box.Some? && box.value.left.None? ==> r.left == 0.0
    ensures box.Some? && box.value.width.None? ==> r.width == 0.0
    ensures box.Some? && box.value.height.None? ==> r.height == 0.0
  {
    match box
    case None => BoundingBox(0.0, 0.0, 0.0, 0.0)
    case Some(b) => BoundingBox(b.top.GetOr(0.0), b.left.GetOr(0.0), b.width.GetOr(0.0), b.height.GetOr(0.0))
  }

  /** `AgeRange?.Low || 0` and `AgeRange?.High || 100`. */
  function ShapeAgeRange(range: Option<SdkAgeRange>): (r: AgeRange)
    ensures r.high != 0
    ensures range.None? ==> r == AgeRange(0, DefaultAgeHigh)
    ensures range.Some? && range.value.high.Some? && range.value.high.value != 0 ==> r.high == range.value.high.value
    ensures range.Some? && (range.value.high.None? || range.value.high.value == 0) ==> r.high == DefaultAgeHigh
    ensures range.Some? && range.value.low.Some? ==> r.low == range.value.low.value
    ensures range.Some? && range.value.low.None? ==> r.low == 0
  {
    match range
    case None => AgeRange(0, DefaultAgeHigh)
    case Some(a) =>
      AgeRange(a.low.GetOr(0), if a.high.None? || a.high.value == 0 then DefaultAgeHigh else a.high.value)
  }

  /**
   * One face of the reply: the box and the age range shaped field by field, a missing box all
   * zeros, the age range's upper bound never 0, the gender kept unless missing or empty, and
   * the confidence passed through.
   */
  function ShapeFace(face: SdkFace): (r: FaceDetail)
    ensures r.boundingBox == ShapeBox(face.box) && r.ageRange == ShapeAgeRange(face.ageRange)
    ensures face.box.None? ==> r.boundingBox == BoundingBox(0.0, 0.0, 0.0, 0.0)
    ensures r.ageRange.high != 0 && r.gender != ""
    ensures face.gender.Some? && face.gender.value != "" ==> r.gender == face.gender.value
    ensures face.gender.None? || face.gender.value == "" ==> r.gender == UnknownGender
    ensures r.confidence == face.confidence
  {
    FaceDetail(
      ShapeBox(face.box),
      ShapeAgeRange(face.ageRange),
      ShapeEmotions(SortByConfidence(face.emotions.GetOr([]))),
      TextOr(face.gender, UnknownGender),
      face.confidence)
  }

  /** Shaping after an insertion shapes one more emotion: the inserted one. */
  lemma {:induction false} ShapeInsert(e: SdkEmotion, s: seq<SdkEmotion>)
    ensures multiset(ShapeEmotions(Insert(e, s))) == multiset(ShapeEmotions(s)) + multiset{ShapeEmotion(e)}
  {
    var r := Insert(e, s);
    if s == [] || Key(s[0]) <= Key(e) {
      assert r[0] == e && r[1..] == s;
      assert ShapeEmotions(r) == [ShapeEmotion(e)] + ShapeEmotions(s);
    } else {
      var rest := Insert(e, s[1..]);
      ShapeInsert(e, s[1..]);
      assert r[0] == s[0] && r[1..] == rest;
      var shapedRest, shapedTail := ShapeEmotions(rest), ShapeEmotions(s[1..]);
      assert ShapeEmotions(r) == [ShapeEmotion(s[0])] + shapedRest;
      assert ShapeEmotions(s) == [ShapeEmotion(s[0])] + shapedTail;
      assert multiset(shapedRest) == multiset(shapedTail) + multiset{ShapeEmotion(e)};
    }
  }

  /** Sorting before shaping yields the same shaped emotions, only reordered. */
  lemma {:induction false} ShapeSorted(s: seq<SdkEmotion>)
    ensures multiset(ShapeEmotions(SortByConfidence(s))) == multiset(ShapeEmotions(s))
  {
    if s != [] {
      var sortedTail := SortByConfidence(s[1..]);
      ShapeSorted(s[1..]);
      ShapeInsert(s[0], sortedTail);
      assert SortByConfidence(s) == Insert(s[0], sortedTail);
      var shapedTail := ShapeEmotions(s[1..]);
      assert ShapeEmotions(s) == [ShapeEmotion(s[0])] + shapedTail;
      assert multiset(ShapeEmotions(sortedTail)) == multiset(shapedTail);
    }
  }

  /**
   * A shaped face lists exactly the reply's emotions, each shaped (type or `UNKNOWN`, confidence
   * or 0), by non-increasing confidence, and always names a gender.
   */
  lemma ShapedFace(face: SdkFace)
    ensures var r := ShapeFace(face);
      && multiset(r.emotions) == multiset(ShapeEmotions(face.emotions.GetOr([])))
      && multiset(SortByConfidence(face.emotions.GetOr([]))) == multiset(face.emotions.GetOr([]))
      && |r.emotions| == |face.emotions.GetOr([])|
      && (forall i, j | 0 <= i < j < |r.emotions| :: r.emotions[i].confidence >= r.emotions[j].confidence)
      && (forall i | 0 <= i < |r.emotions| :: r.emotions[i].kind != "")
      && r.gender != ""
      && (face.gender.None? ==> r.gender == UnknownGender)
  {
    var sorted := SortByConfidence(face.emotions.GetOr([]));
    assert |sorted| == |multiset(sorted)|;
    ShapeSorted(face.emotions.GetOr([]));
  }

  function ShapeFaces(faces: seq<SdkFace>): (r: seq<FaceDetail>)
    ensures |r| == |faces|
    ensures forall i | 0 <= i < |faces| :: r[i] == ShapeFace(faces[i])
  {
    if faces == [] then [] else [ShapeFace(faces[0])] + ShapeFaces(faces[1..])
  }

  /** The reply of DetectFaces, shaped one face for one face in reply order; `[]` on failure. */
  function ShapeFaceReply(reply: Reply<Option<seq<SdkFace>>>): (r: seq<FaceDetail>)
    ensures reply.Failed? ==> r == []
    ensures reply.Replied? ==> r == ShapeFaces(reply.body.GetOr([]))
  {
    match reply
    case Failed => []
    case Replied(faces) => ShapeFaces(faces.GetOr([]))
  }

  /** `detectFaces`: all attributes are requested. */
  function DetectFaces(endpoint: Endpoint, image: Bytes): (r: seq<FaceDetail>)
    ensures var reply := endpoint.detectFaces(FacesRequest(image, AllAttributes));
      && (reply.Failed? ==> r == [])
      && (reply.Replied? ==>
            |r| == |reply.body.GetOr([])| && forall i | 0 <= i < |r| :: r[i] == ShapeFace(reply.body.GetOr([])[i]))
  {
    ShapeFaceReply(endpoint.detectFaces(FacesRequest(image, AllAttributes)))
  }

  // ---------------------------------------------------------------------------
  // indexFaces
  // ---------------------------------------------------------------------------

  /** `FaceRecords.map(record => record.Face?.FaceId || '').filter(Boolean)`. */
  function FaceIds(records: seq<SdkFaceRecord>): (r: seq<string>)
    ensures |r| <= |records|
    ensures forall k | 0 <= k < |r| :: r[k] != ""
  {
    if records == [] then []
    else
      var id := TextOr(records[0].faceId, "");
      (if id == "" then [] else [id]) + FaceIds(records[1..])
  }

  lemma {:induction false} FaceIdsAppend(a: seq<SdkFaceRecord>, b: seq<SdkFaceRecord>)
    ensures FaceIds(a + b) == FaceIds(a) + FaceIds(b)
  {
    if a != [] {
      assert (a + b)[0] == a[0];
      assert (a + b)[1..] == a[1..] + b;
      FaceIdsAppend(a[1..], b);
    } else {
      assert a + b == b;
    }
  }

  /** A record without a face id contributes nothing; one with an id contributes it, in order. */
  lemma FaceIdsOfRecord(r: SdkFaceRecord)
    ensures r.faceId.None? || r.faceId.value == "" ==> FaceIds([r]) == []
    ensures r.faceId.Some? && r.faceId.value != "" ==> FaceIds([r]) == [r.faceId.value]
  {
    assert [r][1..] == [];
  }

  function ShapeIndexReply(reply: Reply<Option<seq<SdkFaceRecord>>>): (r: seq<string>)
    ensures reply.Failed? ==> r == []
    ensures reply.Replied? ==> r == FaceIds(reply.body.GetOr([]))
  {
    match reply
    case Failed => []
    case Replied(records) => FaceIds(records.GetOr([]))
  }

  /** `indexFaces`: at most 10 faces into the client's collection, tagged with the image id. */
  function IndexFaces(endpoint: Endpoint, collectionId: string, image: Bytes, externalImageId: string): (r: seq<string>)
    ensures var reply := endpoint.indexFaces(
        IndexRequest(collectionId, image, externalImageId, AllAttributes, MaxIndexedFaces, AutoQualityFilter));
      && (reply.Failed? ==> r == [])
      && (reply.Replied? ==> |r| <= |reply.body.GetOr([])|)
      && forall k | 0 <= k < |r| :: r[k] != ""
  {
    ShapeIndexReply(endpoint.indexFaces(
      IndexRequest(collectionId, image, externalImageId, AllAttributes, MaxIndexedFaces, AutoQualityFilter)))
  }

  // ---------------------------------------------------------------------------
  // analyzeImage and analyzeMultiple
  // ---------------------------------------------------------------------------

  /**
   * `analyzeImage` never fails: the three calls are independent, and a failure of one empties
   * only its own part of the result.
   */
  function AnalyzeImage(endpoint: Endpoint, collectionId: string, image: Bytes, imageId: string): (r: Analysis)
    ensures endpoint.detectLabels(LabelsRequest(image, MaxLabels, MinConfidence)).Failed? ==> r.labels == []
    ensures endpoint.detectFaces(FacesRequest(image, AllAttributes)).Failed? ==> r.faces == []
    ensures var request := IndexRequest(collectionId, image, imageId, AllAttributes, MaxIndexedFaces, AutoQualityFilter);
      endpoint.indexFaces(request).Failed? ==> r.faceIds == []
    ensures forall k | 0 <= k < |r.faceIds| :: r.faceIds[k] != ""
    ensures r.labels == DetectLabels(endpoint, image) && r.faces == DetectFaces(endpoint, image)
  {
    Analysis(DetectLabels(endpoint, image), DetectFaces(endpoint, image), IndexFaces(endpoint, collectionId, image, imageId))
  }

  // ---------------------------------------------------------------------------
  // initializeFaceCollection
  // ---------------------------------------------------------------------------

  datatype InitOutcome = InitOutcome(collections: set<string>, createSent: bool)

  /**
   * One `initializeFaceCollection` against the account's collections: when the listing succeeds
   * and lacks the id, a create is sent, and it adds the id when it succeeds. Errors are swallowed.
   */
  function InitCollection(collections: set<string>, id: string, listOk: bool, createOk: bool): (r: InitOutcome)
    ensures r.createSent <==> listOk && id !in collections
    ensures r.collections == collections || (r.createSent && createOk && r.collections == collections + {id})
  {
    if !listOk || id in collections then InitOutcome(collections, false)
    else InitOutcome(if createOk then collections + {id} else collections, true)
  }

  /** Repeated initialisation creates the collection at most once. */
  lemma InitIdempotent(collections: set<string>, id: string, listOk2: bool, createOk2: bool)
    ensures var first := InitCollection(collections, id, true, true);
      var second := InitCollection(first.collections, id, listOk2, createOk2);
      id in first.collections && !second.createSent && second.collections == first.collections
  {
  }

  class RekognitionService {
    const region: string
    const collectionId: string
    const endpoint: Endpoint
    /** The collection ids that exist in the account the client talks to. */
    var collections: set<string>
    /** How many CreateCollection requests this client has sent. */
    ghost var createRequests: nat

    constructor (region: string, collectionId: string, endpoint: Endpoint, collections: set<string>)
      ensures this.region == region && this.collectionId == collectionId && this.endpoint == endpoint
      ensures this.collections == collections && createRequests == 0
    {
      this.region := region;
      this.collectionId := collectionId;
      this.endpoint := endpoint;
      this.collections := collections;
      createRequests := 0;
    }

    /** `initializeFaceCollection`; `listOk` and `createOk` are the outcomes of the two calls. */
    method InitializeFaceCollection(listOk: bool, createOk: bool)
      modifies this
      ensures var step := InitCollection(old(collections), collectionId, listOk, createOk);
        collections == step.collections && createRequests == old(createRequests) + (if step.createSent then 1 else 0)
    {
      if !listOk {
        return;
      }
      var collectionExists := collectionId in collections;
      if !collectionExists {
        createRequests := createRequests + 1;
        if createOk {
          collections := collections + {collectionId};
        }
      }
    }

    /** `analyzeMultiple`: one result per input, in input order, tagged with the input's id. */
    method AnalyzeMultiple(images: seq<ImageInput>) returns (results: seq<TaggedAnalysis>)
      ensures |results| == |images|
      ensures forall i | 0 <= i < |images| ::
        results[i] == TaggedAnalysis(AnalyzeImage(endpoint, collectionId, images[i].buffer, images[i].id), images[i].id)
    {
      results := [];
      for i := 0 to |images|
        invariant |results| == i
        invariant forall k | 0 <= k < i ::
          results[k] == TaggedAnalysis(AnalyzeImage(endpoint, collectionId, images[k].buffer, images[k].id), images[k].id)
      {
        var analysis := AnalyzeImage(endpoint, collectionId, images[i].buffer, images[i].id);
        results := results + [TaggedAnalysis(analysis, images[i].id)];
      }
    }
  }
}
