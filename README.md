# Image analyser: ingestion pipeline and gallery queries

This project models the core of a Next.js image-analysis application in Dafny.

`POST /api/upload` takes a Google Drive folder URL and runs the ingestion pipeline:
1. It lists the folder tree and downloads every image file.
2. It re-encodes any image over 40 MiB towards 10 MiB.
3. It sends each image to AWS Rekognition for labels, faces and face indexing.
4. It stores the bytes and a JSON metadata record in S3.

`GET /api/images` serves the stored records, or three sample records when the store is not configured or holds nothing. The gallery page builds its label catalogue from those records and filters them by a search query, selected labels and a "with faces" switch.

## Layout

| file | module | models |
|---|---|---|
| base.dfy | `Base` | `Option`, `Result`, byte buffers, sequence helpers (`Elems`, `Distinct`, `IsSubsequence`) |
| text.dfy | `Text` | `startsWith`, `endsWith`, `includes`, `split`-field access, ASCII `toLowerCase`, decimal printing and `parseInt` |
| compression.ts → compression.dfy | `Compression` | `ImageCompressionService` |
| googleDrive.ts → google_drive.dfy | `GoogleDrive` | `GoogleDriveService` |
| rekognition.ts → rekognition.dfy | `Rekognition` | `RekognitionService` |
| s3.ts → s3.dfy | `S3` | `S3Service` |
| config.ts → config.dfy | `Config` | environment variables and the lazy service singletons |
| upload/route.ts → upload_route.dfy | `UploadRoute` | `POST /api/upload` |
| images/route.ts → images_route.dfy | `ImagesRoute` | `GET /api/images` |
| filter-bar.tsx → filter_bar.dfy | `FilterBar` | the filter bar component |
| gallery-page.tsx → gallery.dfy | `Gallery` | the gallery page's catalogue, filters and state handlers |

### External services

Every external service is an oracle:

- **The `sharp` codec** is a `Compression.Codec`. Its `probe` reads metadata and its `encode` performs one re-encode request. Either one returns `None` where the library throws.
- **The Drive API** is a `GoogleDrive.Drive` value, with three parts:
  - `listing` maps each folder id to its first page of entries;
  - `downloads` maps each file id to its bytes;
  - `lookups` holds the ids whose metadata lookup succeeds.

  An id missing from any of these is a call that throws.
- **Each Rekognition call** is a function from its request to a `Reply` (`Failed`, or `Replied` with the response body).
- **The S3 bucket** is the `objects` map of an `S3Service`. Three more parts complete it:
  - `refused` is the set of keys whose PutObject throws;
  - `presign` signs a key, or fails;
  - `decodeURIComponent` is a partial function `decode`.
- **Suppliers:**
  - `uuidv4()` is a supply `uuid: nat -> string`, indexed by call number.
  - `Date.now()` and `toISOString()` during the `k`-th upload are `clock(k)` and `iso(k)`.

### State and specifications

Where the source updates state in place, the model is a class whose fields the methods reassign:
- `S3Service.objects`;
- `RekognitionService.collections`;
- the four singletons of `Config.Services`;
- the `GalleryPage` component state.

Loops are `while` or `for` loops.

Each such method is proved equal to a pure specification function (`UploadImageStep`, `RefreshAll`, `StoreAll`, `Traverse`, `Compress`, …). The properties are lemmas about those functions.

## Model

| member | source | states |
|---|---|---|
| Compression.ImageCompressionService.constructor | lib/services/compression.ts:15-17 | the service holds only the codec it calls |
| Compression.Unchanged | lib/services/compression.ts:25-38 | an unchanged result is the input itself, not compressed, with both sizes equal to its length |
| Compression.OutputFormat | lib/services/compression.ts:50-69 | the output is WebP exactly when the MIME type contains "webp"; everything else, PNG included, is JPEG |
| Compression.BaseDimension | lib/services/compression.ts:91-92 | a present, non-zero metadata dimension is used; otherwise the positive default |
| Compression.QualityLoop | lib/services/compression.ts:72-85 | an output still over 10 MiB when the loop ends was produced at quality 30 or below |
| Compression.QualityLoopSteps | lib/services/compression.ts:72-85 | from a quality on the 10-step grid, the loop stops at 30 at the latest, and its i-th request re-encodes the original bytes one step below the previous one |
| Compression.QualityLoopOutputs | lib/services/compression.ts:72-85 | the loop continues past a request only while that request's output exceeds 10 MiB, and returns its last request's output |
| Compression.QualityLoopShape | lib/services/compression.ts:72-85 | the loop stays on the 10-step grid between 30 and its start, makes one request per step, always from the original bytes, continues only while the output exceeds 10 MiB, and exits within the target or at quality 30 |
| Compression.Compress | lib/services/compression.ts:25-130 | the whole policy; an input of at most 40 MiB is returned byte-identical and uncompressed, with no codec request (the other outcomes are stated by the lemmas below) |
| Compression.Finish | lib/services/compression.ts:88-129 | a compressed result records the input's length as original size and its own length as compressed size; anything else is the input unchanged |
| Compression.AttemptsFromOriginal | lib/services/compression.ts:56-104 | every encode request, the resize included, re-encodes the original input in the chosen format; there are at most seven |
| Compression.ResultFields | lib/services/compression.ts:107-129 | an uncompressed result is the input with both sizes its length; a compressed one has the input length as original size, its own length as compressed size, and is the last request's output |
| Compression.PlainRequests | lib/services/compression.ts:44-85 | before any resize, the i-th request is at quality 80-10i and never below 30; the last of them produced the loop's output, and an output still over 10 MiB was produced at quality 30 |
| Compression.ScheduleWithResize | lib/services/compression.ts:88-105 | a plain schedule ending at the floor quality, followed by one resize at quality 75 scaled from the floor output's size, keeps the schedule and has its resize only at the end |
| Compression.QualitySchedule | lib/services/compression.ts:44-105 | the i-th plain request is at quality 80-10i, never below 30; a resize request is only the last one, at quality 75, after a floor-quality output still over 10 MiB, scaled from that output's size |
| Compression.AtMostOneResize | lib/services/compression.ts:88-105 | no run makes two resize requests |
| Compression.Converges | lib/services/compression.ts:72-105 | a compressed result is within 10 MiB, or came from the single resize after quality reached 30 |
| Compression.FailureFallsBack | lib/services/compression.ts:119-129 | the result is uncompressed exactly when the input is under the threshold, the metadata read threw, or the last encode threw |
| Compression.CompressImage | lib/services/compression.ts:25-130 | the step-by-step method yields exactly the result and encode requests of the policy `Compress` |
| Compression.CompressMultiple | lib/services/compression.ts:135-150 | one result per input, in input order, carrying the input's name and that input's compression result |
| GoogleDrive.GoogleDriveService.constructor | lib/services/googleDrive.ts:24-29 | the client keeps its API key and the Drive it reads |
| GoogleDrive.IdRun | lib/services/googleDrive.ts:39-40 | the greedy capture is the longest run of `[a-zA-Z0-9-_]` from its start |
| GoogleDrive.FirstMatch | lib/services/googleDrive.ts:44 | the leftmost position where a pattern matches, or none anywhere |
| GoogleDrive.Capture | lib/services/googleDrive.ts:44-46 | a capture exists exactly when the pattern matches somewhere, and is a non-empty run of id characters |
| GoogleDrive.ExtractFolderId | lib/services/googleDrive.ts:37-51 | a returned id is non-empty and made of id characters; the result is null exactly when neither pattern matches |
| GoogleDrive.FoldersPatternFirst | lib/services/googleDrive.ts:38-47 | the leftmost `folders/` match decides the id, whatever `id=` parameters follow |
| GoogleDrive.IdPatternFallback | lib/services/googleDrive.ts:38-48 | without a `folders/` match, the leftmost `id=` match decides the id |
| GoogleDrive.IsImageFile | lib/services/googleDrive.ts:93-95 | true exactly when the MIME type starts with `image/`; the folder type is never an image |
| GoogleDrive.IsFolder | lib/services/googleDrive.ts:73 | a folder entry is never an image file |
| GoogleDrive.Subfolders | lib/services/googleDrive.ts:72-75 | an id is pushed onto the stack exactly when some listed entry is a folder with that id |
| GoogleDrive.Images | lib/services/googleDrive.ts:72-79 | the appended entries are exactly the listed non-folder images, each as often as it is listed |
| GoogleDrive.Tree | lib/services/googleDrive.ts:56-88 | every subtree costs at least one list call, so the traversal's measure decreases |
| GoogleDrive.ForestAppend | lib/services/googleDrive.ts:58-61 | the summary of a stack is the join of the summaries of its parts |
| GoogleDrive.ChildrenAsForest | lib/services/googleDrive.ts:72-75 | a folder's children summarise as the stack of its subfolder ids |
| GoogleDrive.Traverse | lib/services/googleDrive.ts:56-88 | every returned entry is an image and not a folder; a failure carries the access-failure message |
| GoogleDrive.PopStep | lib/services/googleDrive.ts:60-80 | popping a listable folder and pushing its subfolders removes one list call and that folder's images from what remains |
| GoogleDrive.PopFails | lib/services/googleDrive.ts:81-84 | an unlistable folder on top leaves the stack's tree incomplete |
| GoogleDrive.TraverseMeaning | lib/services/googleDrive.ts:56-88 | the traversal succeeds exactly when every reachable folder can be listed, and then returns each reachable image entry exactly as often as it occurs |
| GoogleDrive.ListingFailureAborts | lib/services/googleDrive.ts:81-84 | a listing failure of any reachable folder aborts the whole traversal |
| GoogleDrive.PrependAppend | lib/services/googleDrive.ts:78 | appending two batches of entries in turn is appending their concatenation |
| GoogleDrive.ListFolder | lib/services/googleDrive.ts:72-80 | the loop over one folder's entries pushes exactly its subfolders and appends exactly its images, in order |
| GoogleDrive.ListFilesRecursive | lib/services/googleDrive.ts:56-88 | the worklist loop returns exactly the traversal `Traverse` from the root |
| GoogleDrive.DeclaredSizeOf | lib/services/googleDrive.ts:149 | a decimal declared size is read back as that number; a missing one is 0 |
| GoogleDrive.DeclaredSize | lib/services/googleDrive.ts:149 | a missing or empty declared size counts as 0 |
| GoogleDrive.Downloaded | lib/services/googleDrive.ts:138-157 | the download loop keeps at most one image per listed file |
| GoogleDrive.DownloadedAppend | lib/services/googleDrive.ts:140-155 | downloads of consecutive batches concatenate, in listing order |
| GoogleDrive.FailedDownloadSkipped | lib/services/googleDrive.ts:151-154 | a failed download gives the same result as if the file were not listed; its siblings are unaffected |
| GoogleDrive.AllDownloaded | lib/services/googleDrive.ts:140-150 | when every download succeeds, the i-th image carries the i-th file's name, MIME type, bytes and declared size |
| GoogleDrive.DownloadAll | lib/services/googleDrive.ts:138-157 | the download loop keeps, in listing order, exactly the files whose download succeeds |
| GoogleDrive.Fetch | lib/services/googleDrive.ts:124-158 | a URL with no folder id fails with the invalid-URL message; any other failure carries the access-failure message |
| GoogleDrive.FetchImagesFromFolder | lib/services/googleDrive.ts:124-158 | the method returns exactly `Fetch`: a bad URL fails before any listing, a listing failure fails, otherwise the downloaded images |
| GoogleDrive.VerifyFolderAccess | lib/services/googleDrive.ts:163-179 | true exactly when an id is extracted and its lookup succeeds; false when neither pattern matches |
| Rekognition.TextOr | lib/services/rekognition.ts:137-140 | a present non-empty string is kept; a missing or empty one gives the fallback |
| Rekognition.LabelNames | lib/services/rekognition.ts:96 | one name per label, in order, `''` for a missing name |
| Rekognition.DetectLabels | lib/services/rekognition.ts:85-104 | a failed call gives `[]`; a reply with a label list gives one name per label |
| Rekognition.ShapeLabels | lib/services/rekognition.ts:94-103 | the label names in reply order; `[]` on failure or without a label list |
| Rekognition.Key | lib/services/rekognition.ts:135 | the sort key is the confidence, 0 when missing |
| Rekognition.Insert | lib/services/rekognition.ts:134-135 | inserting adds exactly the new emotion to the others and puts it first or keeps the old head |
| Rekognition.InsertKeepsOrder | lib/services/rekognition.ts:134-135 | inserting into a list ordered by non-increasing confidence keeps it so ordered |
| Rekognition.SortByConfidence | lib/services/rekognition.ts:134-135 | the emotions by non-increasing confidence (missing counts as 0), a permutation of the reply's |
| Rekognition.ShapeEmotion | lib/services/rekognition.ts:136-139 | a present, non-empty type is kept, otherwise `UNKNOWN`; the confidence is the reply's, 0 when missing |
| Rekognition.ShapeInsert | lib/services/rekognition.ts:134-139 | shaping after an insertion yields the shaped list plus exactly the inserted emotion, shaped |
| Rekognition.ShapeSorted | lib/services/rekognition.ts:134-139 | sorting before shaping changes only the order of the shaped emotions |
| Rekognition.ShapeEmotions | lib/services/rekognition.ts:136-139 | emotions are shaped one for one, in order |
| Rekognition.ShapeBox | lib/services/rekognition.ts:124-129 | a missing box is all zeros; each missing field is 0 and each present field is kept |
| Rekognition.ShapeAgeRange | lib/services/rekognition.ts:130-133 | a missing range is 0 to 100; a missing lower bound is 0 and a present one kept; a missing or zero upper bound is 100 and any other kept |
| Rekognition.ShapeFace | lib/services/rekognition.ts:123-142 | the box and age range are shaped field by field; a missing box is all zeros; a present, non-empty gender is kept, otherwise `Unknown`; the confidence is the reply's |
| Rekognition.ShapedFace | lib/services/rekognition.ts:123-142 | a face's emotions are exactly the reply's emotions, each shaped, as a multiset, ordered by non-increasing confidence, each with a type; its gender is never empty and is `Unknown` when missing |
| Rekognition.ShapeFaces | lib/services/rekognition.ts:123 | faces are shaped one for one, in reply order |
| Rekognition.ShapeFaceReply | lib/services/rekognition.ts:120-149 | the shaped faces of the reply; `[]` on failure |
| Rekognition.DetectFaces | lib/services/rekognition.ts:111-150 | a failed call gives `[]`; otherwise the i-th face is the i-th reply face shaped |
| Rekognition.FaceIds | lib/services/rekognition.ts:173 | every kept face id is non-empty; no more ids than records |
| Rekognition.FaceIdsAppend | lib/services/rekognition.ts:173 | the ids of consecutive records concatenate, in order |
| Rekognition.FaceIdsOfRecord | lib/services/rekognition.ts:173 | a record without a face id, or with an empty one, contributes nothing; otherwise its id |
| Rekognition.ShapeIndexReply | lib/services/rekognition.ts:170-181 | the non-empty face ids of the reply; `[]` on failure |
| Rekognition.IndexFaces | lib/services/rekognition.ts:158-182 | a failed call gives `[]`; otherwise no more ids than face records, none empty |
| Rekognition.AnalyzeImage | lib/services/rekognition.ts:190-205 | analysis never fails; a failed call empties only its own part; face ids are non-empty |
| Rekognition.InitCollection | lib/services/rekognition.ts:56-78 | a create is sent exactly when the listing succeeds and lacks the id; the collections change only by adding the id after a successful create |
| Rekognition.InitIdempotent | lib/services/rekognition.ts:62-69 | after one successful initialisation, a second sends no create and changes nothing |
| Rekognition.RekognitionService.constructor | lib/services/rekognition.ts:48-51 | a new client keeps its region, collection id and endpoint, and has sent no create |
| Rekognition.RekognitionService.InitializeFaceCollection | lib/services/rekognition.ts:56-78 | the account's collections and the create count change exactly as `InitCollection` says |
| Rekognition.RekognitionService.AnalyzeMultiple | lib/services/rekognition.ts:212-226 | one analysis per input, in input order, tagged with the input's id |
| S3.ImageKey | lib/services/s3.ts:47 | an image key starts with `images/` and ends with the file name |
| S3.MetadataKey | lib/services/s3.ts:81 | a metadata key starts with `metadata/` and ends with `.json` |
| S3.KeysDisjoint | lib/services/s3.ts:81 | no image key is a metadata key |
| S3.MetadataKeyInjective | lib/services/s3.ts:81 | different record ids give different metadata keys |
| S3.IdFromKey | lib/services/s3.ts:197 | the derived id exists exactly when the key has a `/`, and contains no `-` or `/` |
| S3.IdOfImageKey | lib/services/s3.ts:197 | the id derived from an image key is the upload's timestamp, whatever the file name holds |
| S3.SignedUrl | lib/services/s3.ts:104-117 | signing succeeds exactly when the presigner does, with the seven-day lifetime |
| S3.UploadImageStep | lib/services/s3.ts:42-73 | a refused key fails and writes nothing; otherwise the bytes are written under the image key, and the result succeeds exactly when signing does, with that key, URL and bucket |
| S3.UploadMetadataStep | lib/services/s3.ts:80-97 | fails exactly when the metadata key is refused, writing nothing; otherwise writes the record under that key |
| S3.FullMetadata | lib/services/s3.ts:196-207 | building the record throws exactly when no id is given and the image key has no `/`; the record carries the upload's URL and a non-empty given id |
| S3.UploadWithMetadataStep | lib/services/s3.ts:186-213 | no key is removed; only the image key and metadata keys are written; a success had its image key accepted and signed |
| S3.UploadedRecord | lib/services/s3.ts:186-213 | the record's id is the caller's when non-empty, else the timestamp; labels and faces default to empty; each info field the caller gives overrides its default (the time, the file name, the byte length); exactly the image and the record are written |
| S3.ImageFailureWritesNothing | lib/services/s3.ts:193-210 | when the image write fails, the upload fails and no record is written |
| S3.ImageStaysWritten | lib/services/s3.ts:193-210 | once the image write succeeds, the image stays stored whatever happens to the record |
| S3.GetMetadata | lib/services/s3.ts:159-177 | a record is returned exactly when the key holds one; it is the stored record |
| S3.Listed | lib/services/s3.ts:135-146 | the listing loop keeps at most one record per listed key |
| S3.ListAll | lib/services/s3.ts:122-153 | for a listing of distinct stored `metadata/` keys, every returned record is stored under a `metadata/` key ending in `.json`; a failed listing yields `[]` |
| S3.ListedSound | lib/services/s3.ts:135-141 | every listed record is stored under a listed `metadata/` key ending in `.json` |
| S3.ListedComplete | lib/services/s3.ts:135-141 | every listed `.json` key that holds a record contributes it |
| S3.FullPageListsAll | lib/services/s3.ts:122-153 | when the page lists every stored `metadata/` key, every stored record under a `.json` key is returned |
| S3.RefreshKey | lib/services/s3.ts:224-226 | key reconstruction throws only the undefined-`split` error or the malformed-URI error |
| S3.RefreshKeyAborts | lib/services/s3.ts:224-226 | key reconstruction throws exactly on an `amazonaws.com` URL without `.com/` or with an undecodable path; other URLs give a key under `images/` |
| S3.RefreshRecord | lib/services/s3.ts:228-233 | a signing failure leaves the record and bucket as they were; otherwise the URL becomes the presigned URL and nothing else changes, and the record is written back under its metadata key unless that write is refused |
| S3.KeysFoundLast | lib/services/s3.ts:222-226 | every record's key can be found exactly when every earlier record's can and the last one's can |
| S3.UrlsOnlyChangedAppend | lib/services/s3.ts:228-233 | appending a record that differs from its source only in `imageUrl` keeps the results one for one with their sources |
| S3.RefreshChangesOnlyUrls | lib/services/s3.ts:219-237 | refreshing succeeds exactly when every record's key can be found, and then returns one record per record, differing only in `imageUrl` |
| S3.OnlyMetadataWrittenTrans | lib/services/s3.ts:228-233 | writes confined to metadata keys compose: two such steps together also keep every key and change only metadata keys |
| S3.RefreshWritesOnlyMetadata | lib/services/s3.ts:228-233 | the refresh keeps every stored key and changes only objects under `metadata/` |
| S3.RefreshAll | lib/services/s3.ts:219-237 | no key is removed; a success returns one record per listed record |
| S3.RefreshTouchesOnlyUrls | lib/services/s3.ts:219-237 | refreshing succeeds exactly when every key can be found, then returns one record per record differing only in `imageUrl`; it writes only metadata keys and removes nothing |
| S3.RefreshAbortPersists | lib/services/s3.ts:222-226 | once a key reconstruction throws, the refresh has failed, whatever follows |
| S3.RefreshedRecord | lib/services/s3.ts:222-233 | after a successful refresh each record's key was found, and the record comes back with that key's presigned URL, or unchanged when signing fails |
| S3.RefreshWritesBack | lib/services/s3.ts:228-233 | a record with a signable key and an accepted metadata key is stored back as refreshed, unless a later record with the same id overwrites it |
| S3.SignFailureIsolated | lib/services/s3.ts:228-233 | a record whose URL cannot be signed comes back unchanged, while any other record whose key can be signed still gets its presigned URL |
| S3.S3Service.constructor | lib/services/s3.ts:30-33 | a new client keeps its region and bucket |
| S3.S3Service.UploadImage | lib/services/s3.ts:42-73 | result and new bucket are exactly `UploadImageStep`'s |
| S3.S3Service.UploadMetadata | lib/services/s3.ts:80-97 | result and new bucket are exactly `UploadMetadataStep`'s |
| S3.S3Service.UploadImageWithMetadata | lib/services/s3.ts:186-213 | result and new bucket are exactly `UploadWithMetadataStep`'s |
| S3.S3Service.ListAllMetadata | lib/services/s3.ts:122-153 | for a listing of distinct stored `metadata/` keys, the loop returns exactly `ListAll` of the bucket and changes nothing |
| S3.S3Service.RefreshAllUrls | lib/services/s3.ts:219-237 | result and new bucket are exactly `RefreshAll` over the listed records |
| Config.GetEnvVar | lib/config.ts:12-18 | fails exactly when the variable is required and missing or empty, naming it; otherwise its value, or `''` when absent |
| Config.S3Region | lib/config.ts:43 | the S3 region is `AWS_REGION` when set, else `us-east-1` |
| Config.RekognitionRegion | lib/config.ts:52 | the Rekognition region falls back through `AWS_REKOGNITION_REGION`, `AWS_REGION`, `ap-southeast-1`, and is never empty |
| Config.CollectionId | lib/config.ts:53 | the collection id is `AWS_REKOGNITION_COLLECTION_ID` when set, else `faces-collection`, and is never empty |
| Config.Services.constructor | lib/config.ts:21-24 | no service is built yet |
| Config.Services.GetGoogleDriveService | lib/config.ts:26-32 | built at most once, from the required API key; later calls return the same instance; other singletons unchanged |
| Config.Services.GetCompressionService | lib/config.ts:34-39 | built at most once and never fails; later calls return the same instance |
| Config.Services.GetS3Service | lib/config.ts:41-48 | built at most once; fails exactly when the bucket name is missing; later calls return the same instance |
| Config.Services.GetRekognitionService | lib/config.ts:50-57 | built at most once with the region and collection fallbacks; later calls return the same instance |
| UploadRoute.Succeeded | app/api/upload/route.ts:112-116 | the success reply has status 200, the number of stored images, and a message reporting it |
| UploadRoute.Failed | app/api/upload/route.ts:117-123 | a thrown error gives status 500 and a non-empty message |
| UploadRoute.Process | app/api/upload/route.ts:55-63 | a processed entry keeps the name and MIME type, records the input's length and its own, and is byte-identical at most 40 MiB |
| UploadRoute.ProcessAll | app/api/upload/route.ts:53-64 | one processed entry per fetched image, in order |
| UploadRoute.Analyse | app/api/upload/route.ts:72-86 | the entry carries the fresh id, the processed name, bytes and MIME type, the compressed size, and the labels and faces detected in those bytes |
| UploadRoute.AnalyseAll | app/api/upload/route.ts:68-87 | one analysis per processed image, in order, the i-th under the i-th fresh id |
| UploadRoute.Partial | app/api/upload/route.ts:100-104 | the caller supplies id, labels and faces, and no info fields |
| UploadRoute.StoreItem | app/api/upload/route.ts:96-105 | a successful upload stores the item's id (the timestamp when the id is empty), labels, faces, name and byte count |
| UploadRoute.RecordsForAppend | app/api/upload/route.ts:91-108 | appending the record built from the next item keeps the records one for one with their items |
| UploadRoute.StoreAllLast | app/api/upload/route.ts:91-108 | a completed storage loop's records are the earlier passes' records followed by the last item's |
| UploadRoute.StoredRecords | app/api/upload/route.ts:91-108 | a completed storage loop returns one record per item, in order, each built from its item |
| UploadRoute.StoreAll | app/api/upload/route.ts:91-108 | no key is removed; a success returns one record per item |
| UploadRoute.EarlierWritesKept | app/api/upload/route.ts:93-123 | objects are never removed: everything stored before a failure stays stored |
| UploadRoute.StoreAbortPersists | app/api/upload/route.ts:93-108 | once an upload fails, the loop has failed, whatever follows |
| UploadRoute.Pipeline | app/api/upload/route.ts:40-123 | a response succeeds exactly when its status is 200; no stored key is removed |
| UploadRoute.PipelineOutcomes | app/api/upload/route.ts:40-123 | a fetch error is a 500 with its message and no write; an empty folder is the 404, distinct from the 400; success is a 200 counting the fetched images; any other failure is a 500 |
| UploadRoute.PipelineStores | app/api/upload/route.ts:55-108 | on success each image was compressed, analysed and stored once, in order; analysis and storage use the compressed bytes under the source name and MIME type, and the record has the fresh id |
| UploadRoute.DistinctRecordIds | app/api/upload/route.ts:72-101 | distinct non-empty fresh ids give stored records with distinct ids and metadata keys |
| UploadRoute.AnalysedIds | app/api/upload/route.ts:70-79 | a supply with distinct values hands each image a different id |
| UploadRoute.CompressLoop | app/api/upload/route.ts:53-64 | the loop builds exactly `ProcessAll` |
| UploadRoute.AnalysisLoop | app/api/upload/route.ts:68-87 | the loop builds exactly `AnalyseAll` |
| UploadRoute.StorageLoop | app/api/upload/route.ts:91-108 | result and new bucket are exactly `StoreAll`'s |
| UploadRoute.RunPipeline | app/api/upload/route.ts:40-123 | the response and new bucket are exactly `Pipeline`'s |
| UploadRoute.Post | app/api/upload/route.ts:18-124 | a missing URL is the 400 with no service built; a missing Drive key or bucket name is a 500 naming it; otherwise collection initialisation, then `Pipeline` |
| ImagesRoute.MockImages | app/api/images/route.ts:8-69 | the sample set is three records with ids "1", "2", "3" |
| ImagesRoute.HasAwsConfig | app/api/images/route.ts:79-81 | a configured route can read its bucket name |
| ImagesRoute.Get | app/api/images/route.ts:76-109 | without bucket and credentials, or with an empty listing, the sample set; otherwise the records listed from distinct stored `metadata/` keys; never empty |
| ImagesRoute.ListingFailureGivesMock | app/api/images/route.ts:91-99 | a failed store listing also yields the sample set |
| FilterBar.HasActiveFilters | components/filter-bar.tsx:36 | no active filter means an empty query, no selected label and the switch off |
| FilterBar.Remove | components/filter-bar.tsx:70 | unchecking drops every occurrence of the label and keeps every other label |
| FilterBar.RemoveKeepsOrder | components/filter-bar.tsx:70 | the remaining labels keep their order |
| FilterBar.RemoveKeepsDistinct | components/filter-bar.tsx:70 | removing from a duplicate-free selection leaves it duplicate-free |
| FilterBar.OnCheckedChange | components/filter-bar.tsx:65-71 | checking appends the label at the end; unchecking keeps the rest in order; afterwards the checkbox state is the new state and other labels' states are unchanged |
| FilterBar.CheckThenUncheck | components/filter-bar.tsx:66-71 | checking an unchecked label and unchecking it restores the selection |
| Gallery.Below | components/gallery-page.tsx:58 | the sort order is strict: no label is below itself |
| Gallery.BelowTotal | components/gallery-page.tsx:58 | the sort order orders two different strings exactly one way |
| Gallery.Insert | components/gallery-page.tsx:58 | inserting keeps the list ascending and duplicate-free and adds exactly the new label |
| Gallery.Sort | components/gallery-page.tsx:58 | sorting distinct labels gives an ascending, duplicate-free list of the same labels |
| Gallery.LabelUnionMeaning | components/gallery-page.tsx:55-57 | a label is in the union exactly when some image carries it |
| Gallery.AllLabels | components/gallery-page.tsx:53-59 | the catalogue is ascending, duplicate-free, and holds exactly the union of all images' labels |
| Gallery.AllLabelsMembership | components/gallery-page.tsx:53-59 | the catalogue holds a label exactly when some image carries it |
| Gallery.MatchesSearch | components/gallery-page.tsx:63-66 | an empty query matches every image, and every image matches its own id |
| Gallery.MatchesLabels | components/gallery-page.tsx:68 | an image without labels passes exactly when no label is selected |
| Gallery.MatchesFaces | components/gallery-page.tsx:70 | an image without faces passes exactly when the switch is off |
| Gallery.FilterImages | components/gallery-page.tsx:61-74 | every shown image passes all three filters |
| Gallery.FilterCounts | components/gallery-page.tsx:61-74 | an image that passes the filters is shown as often as the gallery holds it; any other, never |
| Gallery.FilterKeepsOrder | components/gallery-page.tsx:62 | the shown images are a subsequence of the gallery, in its order |
| Gallery.FilterMembership | components/gallery-page.tsx:61-74 | an image is shown exactly when it is in the gallery and passes search, label and faces filters |
| Gallery.InactiveFiltersShowAll | components/gallery-page.tsx:61-74 | with no filter active every image is shown, in order |
| Gallery.SearchIgnoresCase | components/gallery-page.tsx:63-66 | the search does not depend on the case of the query |
| Gallery.Toggle | components/gallery-page.tsx:142-146 | toggling flips the label's membership, leaves every other label's, and appends when absent |
| Gallery.ToggleTwice | components/gallery-page.tsx:143-145 | toggling keeps a selection duplicate-free; twice gives the same labels, and exactly the same selection when the label was absent |
| Gallery.GalleryPage.constructor | components/gallery-page.tsx:28-35 | the page starts loading, with no images, filters or open image |
| Gallery.GalleryPage.Load | components/gallery-page.tsx:37-51 | a loaded body replaces the images; a failure sets the error message; either way loading ends |
| Gallery.GalleryPage.SetSearch | components/gallery-page.tsx:128 | the query becomes the input; images, selection, switch, loading flag, error, selected image and viewer are unchanged |
| Gallery.GalleryPage.ToggleLabel | components/gallery-page.tsx:142-146 | the selection becomes `Toggle` of the old one; images, query, switch, loading flag, error, selected image and viewer are unchanged |
| Gallery.GalleryPage.ToggleFaces | components/gallery-page.tsx:158 | the faces switch flips; images, query, selection, loading flag, error, selected image and viewer are unchanged |
| Gallery.GalleryPage.ClearFilters | components/gallery-page.tsx:169-173 | query, selection and switch are reset, no filter is active, and every image is shown; images, loading flag, error, selected image and viewer are unchanged |
| Gallery.GalleryPage.OpenImage | components/gallery-page.tsx:76-79 | the clicked image is selected and the viewer opens; images, filters, loading flag and error are unchanged |

## Left out

- Logging, HTTP plumbing and JSON bodies. A response is a `(success, status, message, processedCount)` value. `JSON.stringify` and `JSON.parse` are taken to be inverse, so a stored record is kept as the record itself.
- The codec's work is left out: re-encoding, the metadata read and the resize. The `Math.sqrt` scale factor and the floored dimensions are floating point. A resize request carries the base dimensions and the buffer size the factor is computed from.
- `compressionRatio` is left out because it is a floating-point ratio. `formatBytes` and `convertToJPEG` (lib/services/compression.ts:155-175) are left out because they feed only logging or are never called by the modelled code.
- Compression: no claim that the compressed size is at most the original, because the source guarantees nothing of the kind.
- Pagination is not modelled. Only the first page of a Drive or S3 listing is read, as in the source. A listing is a page of distinct keys that are stored under `metadata/`. Completeness is claimed only when that one page holds every such key (`S3.FullPageListsAll`).
- Cyclic folder graphs are excluded. The traversal has no visited set, so a ghost `rank` that decreases along every listed subfolder edge is required to ensure termination.
- `Promise.all` is modelled as three independent, error-isolated calls, because the calls do not interact.
- Rekognition.SortByConfidence: the relative order of emotions with equal confidence is not stated. JavaScript's `sort` is stable, and the insertion here also keeps ties in input order, but no lemma states it.
- Rekognition.ShapeEmotion: the confidence is not rounded (`Math.round`), because rounding is floating point. Confidences are integers here, and rounding is monotone, so the order is unaffected.
- Bounding-box fractions and face confidences are carried as reals, with no claim about their ranges.
- SDK error texts are not modelled. A failed call is a `Failed` reply or a `None`, and a thrown error carries the source's own message where it has one.
- GoogleDrive.DeclaredSize: `parseInt` is modelled for a leading run of decimal digits only. A sign, leading spaces or a non-numeric size (`NaN`) are not.
- Gallery.MatchesSearch: `toLowerCase` is modelled on the ASCII letters only. Other Unicode case mappings are left out.
- Gallery.Below: JavaScript's default `sort` compares UTF-16 code units, while the model compares Unicode characters. The two orders differ only between characters outside the Basic Multilingual Plane.
- `initializeServices` (lib/config.ts:62-74) is not modelled, because no modelled route calls it. `POST` performs the same initialisation itself.
- `GET /api/images` has a `catch` branch that returns the sample set. No modelled step reaches it, because the configuration check precedes the only call that could throw and the listing swallows its own errors. The branch is therefore not modelled separately.
- Rekognition.IndexFaces: its reply does not depend on whether the collection exists. The endpoint oracle decides.
- A `Blob` object under a metadata key is never read back as a record. Only objects the model itself stores as records are parsed.
- `refreshAllUrls` rebuilds the key as `images/<id>` for a URL that does not mention `amazonaws.com`. Stored images are keyed `images/<timestamp>-<file name>`, so that key usually names no object. The model signs it as the source does.
- The presentation components are not modelled: the upload page, the image viewer, the image card, the navbar, the footer and the face overlay. `next.config.ts` is not modelled either.
