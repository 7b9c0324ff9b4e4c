/**
 * The Google Drive source adapter (`GoogleDriveService`).
 *
 * The Drive API is an oracle value: `listing` maps a folder id to the first page of its
 * children (a folder missing from the map is one whose list call throws), `downloads` maps a
 * file id to its bytes (missing: the download throws) and `lookups` holds the ids whose
 * metadata lookup succeeds. Termination of the folder traversal needs an acyclic folder
 * graph; a ghost `rank` that strictly decreases from a listed folder to each listed subfolder
 * witnesses it.
 */
module GoogleDrive {
  import opened Base
  import opened Text

  const FolderMimeType: string := "application/vnd.google-apps.folder"
  const FoldersPrefix: string := "folders/"
  const IdPrefix: string := "id="
  const ImagePrefix: string := "image/"
  const InvalidUrlMessage: string := "Invalid Google Drive folder URL"
  const AccessFailedPrefix: string := "Failed to access folder: "

  datatype DriveFile = DriveFile(id: string, name: string, mimeType: string, size: Option<string>)

  datatype ImageFile = ImageFile(name: string, data: Bytes, mimeType: string, size: nat)

  datatype Drive = Drive(listing: map<string, seq<DriveFile>>, downloads: map<string, Bytes>, lookups: set<string>)

  /** A connected Drive client: the API key it was built with and the Drive it reads. */
  class GoogleDriveService {
    const apiKey: string
    const remote: Drive
    ghost const rank: string -> nat

    constructor (apiKey: string, remote: Drive, ghost rank: string -> nat)
      ensures this.apiKey == apiKey && this.remote == remote && this.rank == rank
    {
      this.apiKey := apiKey;
      this.remote := remote;
      this.rank := rank;
    }
  }

  // ---------------------------------------------------------------------------
  // Folder id extraction: the first of /folders\/([a-zA-Z0-9-_]+)/ and /id=([a-zA-Z0-9-_]+)/
  // ---------------------------------------------------------------------------

  /** The character class `[a-zA-Z0-9-_]`. */
  predicate IsIdChar(c: char) {
    'a' <= c <= 'z' || 'A' <= c <= 'Z' || '0' <= c <= '9' || c == '-' || c == '_'
  }

  /** The greedy capture `([a-zA-Z0-9-_]+)` from `from`: the longest run of id characters. */
  function IdRun(s: string, from: nat): (r: string)
    requires from <= |s|
    decreases |s| - from
    ensures from + |r| <= |s| && r == s[from..from + |r|]
    ensures forall i | 0 <= i < |r| :: IsIdChar(r[i])
    ensures from + |r| == |s| || !IsIdChar(s[from + |r|])
  {
    if from < |s| && IsIdChar(s[from]) then [s[from]] + IdRun(s, from + 1) else []
  }

  /** The regular expression `prefix([a-zA-Z0-9-_]+)` matches starting at index `k`. */
  predicate PatternAt(s: string, prefix: string, k: nat) {
    k + |prefix| < |s| && s[k..k + |prefix|] == prefix && IsIdChar(s[k + |prefix|])
  }

  /** The leftmost index at or after `from` where the pattern matches, as `String.match` finds it. */
  function FirstMatch(s: string, prefix: string, from: nat): (r: Option<nat>)
    decreases |s| - from
    ensures r.Some? ==> from <= r.value && PatternAt(s, prefix, r.value)
    ensures r.Some? ==> forall j: nat :: from <= j < r.value ==> !PatternAt(s, prefix, j)
    ensures r.None? ==> forall j: nat :: from <= j ==> !PatternAt(s, prefix, j)
  {
    if |s| <= from + |prefix| then None
    else if PatternAt(s, prefix, from) then Some(from)
    else FirstMatch(s, prefix, from + 1)
  }

  /** Group 1 of the pattern's first match, if any. */
  function Capture(s: string, prefix: string): (r: Option<string>)
    ensures r.None? <==> forall k: nat :: !PatternAt(s, prefix, k)
    ensures r.Some? ==> 0 < |r.value| && forall i | 0 <= i < |r.value| :: IsIdChar(r.value[i])
  {
    match FirstMatch(s, prefix, 0)
    case None => None
    case Some(k) => Some(IdRun(s, k + |prefix|))
  }

  /**
   * `extractFolderId`: the `folders/` pattern is tried before the `id=` pattern. A found id is
   * non-empty and made of id characters; there is none exactly when neither pattern matches.
   */
  function ExtractFolderId(url: string): (r: Option<string>)
    ensures r.Some? ==> 0 < |r.value| && forall i | 0 <= i < |r.value| :: IsIdChar(r.value[i])
    ensures r.None? <==>
      (forall k: nat :: !PatternAt(url, FoldersPrefix, k)) && (forall k: nat :: !PatternAt(url, IdPrefix, k))
  {
    var folders := Capture(url, FoldersPrefix);
    if folders.Some? then folders else Capture(url, IdPrefix)
  }

  /** The leftmost `folders/` match decides the id, whatever `id=` parameters the URL also has. */
  lemma FoldersPatternFirst(url: string, k: nat)
    requires PatternAt(url, FoldersPrefix, k)
    requires forall j: nat :: j < k ==> !PatternAt(url, FoldersPrefix, j)
    ensures ExtractFolderId(url) == Some(IdRun(url, k + |FoldersPrefix|))
  {
    var m := FirstMatch(url, FoldersPrefix, 0);
    assert m.Some?;
    assert m.value <= k;
  }

  /** Without a `folders/` match, the leftmost `id=` match decides the id. */
  lemma IdPatternFallback(url: string, k: nat)
    requires forall j: nat :: !PatternAt(url, FoldersPrefix, j)
    requires PatternAt(url, IdPrefix, k)
    requires forall j: nat :: j < k ==> !PatternAt(url, IdPrefix, j)
    ensures ExtractFolderId(url) == Some(IdRun(url, k + |IdPrefix|))
  {
    var m := FirstMatch(url, IdPrefix, 0);
    assert m.Some?;
    assert m.value <= k;
  }

  /** `isImageFile`: the MIME type starts with `image/`; a folder is never an image. */
  function IsImageFile(mimeType: string): (r: bool)
    ensures r <==> |mimeType| >= |ImagePrefix| && mimeType[..|ImagePrefix|] == ImagePrefix
    ensures r ==> mimeType != FolderMimeType
  {
    assert FolderMimeType[0] == 'a' && ImagePrefix[0] == 'i';
    StartsWith(mimeType, ImagePrefix)
  }

  // ---------------------------------------------------------------------------
  // Traversal of the folder tree with an explicit stack of folder ids
  // ---------------------------------------------------------------------------

  /** The Drive folder MIME type; a folder entry is never taken for an image. */
  predicate IsFolder(file: DriveFile)
    ensures IsFolder(file) ==> !IsImageFile(file.mimeType)
  {
    file.mimeType == FolderMimeType
  }

  /** The ids the listing loop pushes onto the stack, in listing order. */
  function Subfolders(entries: seq<DriveFile>): (r: seq<string>)
    ensures |r| <= |entries|
    ensures forall id | id in r :: exists e | e in entries :: IsFolder(e) && e.id == id
    ensures forall e | e in entries && IsFolder(e) :: e.id in r
  {
    if entries == [] then []
    else
      var last := entries[|entries| - 1];
      assert forall e | e in entries :: e in entries[..|entries| - 1] || e == last;
      Subfolders(entries[..|entries| - 1]) + if IsFolder(last) then [last.id] else []
  }

  /**
   * The entries the listing loop appends to the result, in listing order: every non-folder image
   * entry, as often as it is listed, and nothing else.
   */
  function Images(entries: seq<DriveFile>): (r: seq<DriveFile>)
    ensures |r| <= |entries|
    ensures forall x | x in r :: x in entries && !IsFolder(x) && IsImageFile(x.mimeType)
    ensures forall x :: multiset(r)[x] == if !IsFolder(x) && IsImageFile(x.mimeType) then multiset(entries)[x] else 0
  {
    if entries == [] then []
    else
      var init, last := entries[..|entries| - 1], entries[|entries| - 1];
      assert entries == init + [last];
      Images(init) + if !IsFolder(last) && IsImageFile(last.mimeType) then [last] else []
  }

  /** The folder graph is acyclic: `rank` strictly decreases from a listed folder to each listed subfolder. */
  ghost predicate Ranked(listing: map<string, seq<DriveFile>>, rank: string -> nat) {
    forall f, c | f in listing && c in listing && c in Subfolders(listing[f]) :: rank(c) < rank(f)
  }

  ghost function Level(listing: map<string, seq<DriveFile>>, rank: string -> nat, f: string): nat {
    if f in listing then rank(f) + 1 else 0
  }

  /**
   * What a folder's subtree holds: the number of list calls a traversal of it makes, the
   * multiset of image entries in it, and whether every folder in it can be listed.
   */
  datatype Summary = Summary(work: nat, images: multiset<DriveFile>, complete: bool)

  function Join(a: Summary, b: Summary): Summary {
    Summary(a.work + b.work, a.images + b.images, a.complete && b.complete)
  }

  ghost function Tree(listing: map<string, seq<DriveFile>>, rank: string -> nat, f: string): (t: Summary)
    requires Ranked(listing, rank)
    decreases Level(listing, rank, f), 1, 0
    ensures t.work > 0
  {
    if f in listing then
      Join(Summary(1, multiset(Images(listing[f])), true), Children(listing, rank, f, 0))
    else
      Summary(1, multiset{}, false)
  }

  /** The subtrees of `f`'s subfolders from the `i`-th on. */
  ghost function Children(listing: map<string, seq<DriveFile>>, rank: string -> nat, f: string, i: nat): Summary
    requires Ranked(listing, rank) && f in listing && i <= |Subfolders(listing[f])|
    decreases Level(listing, rank, f), 0, |Subfolders(listing[f])| - i
  {
    var children := Subfolders(listing[f]);
    if i == |children| then Summary(0, multiset{}, true)
    else
      assert children[i] in children;
      Join(Tree(listing, rank, children[i]), Children(listing, rank, f, i + 1))
  }

  /** The subtrees of every folder id on a stack. */
  ghost function Forest(listing: map<string, seq<DriveFile>>, rank: string -> nat, stack: seq<string>): Summary
    requires Ranked(listing, rank)
  {
    if stack == [] then Summary(0, multiset{}, true)
    else Join(Tree(listing, rank, stack[0]), Forest(listing, rank, stack[1..]))
  }

  lemma {:induction false} ForestAppend(listing: map<string, seq<DriveFile>>, rank: string -> nat, a: seq<string>, b: seq<string>)
    requires Ranked(listing, rank)
    ensures Forest(listing, rank, a + b) == Join(Forest(listing, rank, a), Forest(listing, rank, b))
  {
    if a == [] {
      assert a + b == b;
    } else {
      assert (a + b)[1..] == a[1..] + b;
      ForestAppend(listing, rank, a[1..], b);
    }
  }

  lemma {:induction false} ChildrenAsForest(listing: map<string, seq<DriveFile>>, rank: string -> nat, f: string, i: nat)
    requires Ranked(listing, rank) && f in listing && i <= |Subfolders(listing[f])|
    decreases |Subfolders(listing[f])| - i
    ensures Children(listing, rank, f, i) == Forest(listing, rank, Subfolders(listing[f])[i..])
  {
    var children := Subfolders(listing[f]);
    if i < |children| {
      ChildrenAsForest(listing, rank, f, i + 1);
      assert children[i..][1..] == children[i + 1..];
    }
  }

  /** Popping a listable folder and pushing its subfolders: the summary of the stack, one step on. */
  lemma PopStep(listing: map<string, seq<DriveFile>>, rank: string -> nat, stack: seq<string>)
    requires Ranked(listing, rank) && |stack| > 0 && stack[|stack| - 1] in listing
    ensures var f := stack[|stack| - 1];
      var next := stack[..|stack| - 1] + Subfolders(listing[f]);
      Forest(listing, rank, stack) ==
        Join(Summary(1, multiset(Images(listing[f])), true), Forest(listing, rank, next))
  {
    var f := stack[|stack| - 1];
    var prefix := stack[..|stack| - 1];
    assert stack == prefix + [f];
    ForestAppend(listing, rank, prefix, [f]);
    ForestAppend(listing, rank, prefix, Subfolders(listing[f]));
    ChildrenAsForest(listing, rank, f, 0);
    assert Subfolders(listing[f])[0..] == Subfolders(listing[f]);
  }

  /** The last folder on the stack cannot be listed: the stack's subtrees are incomplete. */
  lemma PopFails(listing: map<string, seq<DriveFile>>, rank: string -> nat, stack: seq<string>)
    requires Ranked(listing, rank) && |stack| > 0 && stack[|stack| - 1] !in listing
    ensures !Forest(listing, rank, stack).complete
  {
    var prefix := stack[..|stack| - 1];
    assert stack == prefix + [stack[|stack| - 1]];
    ForestAppend(listing, rank, prefix, [stack[|stack| - 1]]);
  }

  /**
   * The traversal `listFilesRecursive` performs: pop the last folder id, list it (a failure
   * aborts everything), append its image entries, push its subfolder ids, until the stack is empty.
   */
  function Traverse(listing: map<string, seq<DriveFile>>, ghost rank: string -> nat, stack: seq<string>)
    : (r: Result<seq<DriveFile>>)
    requires Ranked(listing, rank)
    decreases Forest(listing, rank, stack).work
    ensures r.Ok? ==> forall x | x in r.value :: !IsFolder(x) && IsImageFile(x.mimeType)
    ensures r.Err? ==> StartsWith(r.message, AccessFailedPrefix)
  {
    if stack == [] then Ok([])
    else
      var f := stack[|stack| - 1];
      if f !in listing then
        assert (AccessFailedPrefix + f)[..|AccessFailedPrefix|] == AccessFailedPrefix;
        Err(AccessFailedPrefix + f)
      else
        var next := stack[..|stack| - 1] + Subfolders(listing[f]);
        PopStep(listing, rank, stack);
        match Traverse(listing, rank, next)
        case Err(e) => Err(e)
        case Ok(rest) => Ok(Images(listing[f]) + rest)
  }

  /**
   * Completeness: the traversal succeeds exactly when every folder reachable from the stack can
   * be listed, and then it lists every image entry of those folders exactly as often as it occurs.
   */
  lemma {:induction false} TraverseMeaning(listing: map<string, seq<DriveFile>>, rank: string -> nat, stack: seq<string>)
    requires Ranked(listing, rank)
    decreases Forest(listing, rank, stack).work
    ensures Traverse(listing, rank, stack).Ok? <==> Forest(listing, rank, stack).complete
    ensures Traverse(listing, rank, stack).Ok? ==>
      multiset(Traverse(listing, rank, stack).value) == Forest(listing, rank, stack).images
  {
    if stack != [] {
      var f := stack[|stack| - 1];
      if f in listing {
        PopStep(listing, rank, stack);
        var next := stack[..|stack| - 1] + Subfolders(listing[f]);
        TraverseMeaning(listing, rank, next);
      } else {
        PopFails(listing, rank, stack);
      }
    }
  }

  /** A failure to list any folder reachable from the root aborts the whole traversal. */
  lemma ListingFailureAborts(listing: map<string, seq<DriveFile>>, rank: string -> nat, root: string)
    requires Ranked(listing, rank) && !Tree(listing, rank, root).complete
    ensures Traverse(listing, rank, [root]).Err?
  {
    TraverseMeaning(listing, rank, [root]);
  }

  function Prepend(files: seq<DriveFile>, r: Result<seq<DriveFile>>): Result<seq<DriveFile>> {
    match r
    case Ok(rest) => Ok(files + rest)
    case Err(e) => Err(e)
  }

  lemma PrependAppend(a: seq<DriveFile>, b: seq<DriveFile>, r: Result<seq<DriveFile>>)
    ensures Prepend(a, Prepend(b, r)) == Prepend(a + b, r)
  {
    if r.Ok? {
      assert a + (b + r.value) == (a + b) + r.value;
    }
  }

  /** The body of the listing loop over one folder's entries. */
  method ListFolder(files: seq<DriveFile>) returns (subfolders: seq<string>, images: seq<DriveFile>)
    ensures subfolders == Subfolders(files) && images == Images(files)
  {
    subfolders, images := [], [];
    for j := 0 to |files|
      invariant subfolders == Subfolders(files[..j])
      invariant images == Images(files[..j])
    {
      assert files[..j + 1][..j] == files[..j];
      var file := files[j];
      if IsFolder(file) {
        subfolders := subfolders + [file.id];
      } else if IsImageFile(file.mimeType) {
        images := images + [file];
      }
    }
    assert files[..|files|] == files;
  }

  /** `listFilesRecursive`: the worklist loop. */
  method ListFilesRecursive(listing: map<string, seq<DriveFile>>, ghost rank: string -> nat, folderId: string)
    returns (r: Result<seq<DriveFile>>)
    requires Ranked(listing, rank)
    ensures r == Traverse(listing, rank, [folderId])
  {
    var allFiles: seq<DriveFile> := [];
    var stack := [folderId];
    ghost var whole := Traverse(listing, rank, stack);
    assert whole.Ok? ==> [] + whole.value == whole.value;
    while |stack| > 0
      invariant Traverse(listing, rank, [folderId]) == Prepend(allFiles, Traverse(listing, rank, stack))
      decreases Forest(listing, rank, stack).work
    {
      var current := stack[|stack| - 1];
      if current !in listing {
        return Err(AccessFailedPrefix + current);
      }
      PopStep(listing, rank, stack);
      var subfolders, images := ListFolder(listing[current]);
      PrependAppend(allFiles, images, Traverse(listing, rank, stack[..|stack| - 1] + subfolders));
      stack := stack[..|stack| - 1] + subfolders;
      allFiles := allFiles + images;
    }
    r := Ok(allFiles);
    assert allFiles + [] == allFiles;
  }

  // ---------------------------------------------------------------------------
  // Download of the listed images; a failed download is skipped
  // ---------------------------------------------------------------------------

  /** `parseInt(file.size || '0')`. */
  function DeclaredSize(size: Option<string>): (n: nat)
    ensures size.None? || size.value == "" ==> n == 0
  {
    ParseDecimalOfNat(0);
    assert NatToString(0) == "0";
    ParseDecimal(if size.None? || size.value == "" then "0" else size.value)
  }

  /** A declared size written in decimal is read back as that number; a missing one is 0. */
  lemma DeclaredSizeOf(n: nat)
    ensures DeclaredSize(Some(NatToString(n))) == n
    ensures DeclaredSize(None) == 0
  {
    ParseDecimalOfNat(n);
    ParseDecimalOfNat(0);
  }

  function ToImage(file: DriveFile, data: Bytes): ImageFile {
    ImageFile(file.name, data, file.mimeType, DeclaredSize(file.size))
  }

  /** The images the download loop keeps: each listed file whose download succeeds, in listing order. */
  function Downloaded(files: seq<DriveFile>, downloads: map<string, Bytes>): (r: seq<ImageFile>)
    ensures |r| <= |files|
  {
    if files == [] then []
    else
      var last := files[|files| - 1];
      Downloaded(files[..|files| - 1], downloads)
        + if last.id in downloads then [ToImage(last, downloads[last.id])] else []
  }

  lemma {:induction false} DownloadedAppend(a: seq<DriveFile>, b: seq<DriveFile>, downloads: map<string, Bytes>)
    ensures Downloaded(a + b, downloads) == Downloaded(a, downloads) + Downloaded(b, downloads)
  {
    if b == [] {
      assert a + b == a;
    } else {
      assert (a + b)[..|a + b| - 1] == a + b[..|b| - 1];
      DownloadedAppend(a, b[..|b| - 1], downloads);
    }
  }

  /** A failed download does not abort its siblings: the result is as if the file were not listed. */
  lemma FailedDownloadSkipped(files: seq<DriveFile>, i: nat, downloads: map<string, Bytes>)
    requires i < |files| && files[i].id !in downloads
    ensures Downloaded(files[..i] + files[i + 1..], downloads) == Downloaded(files, downloads)
  {
    assert files == files[..i] + ([files[i]] + files[i + 1..]);
    DownloadedAppend(files[..i], [files[i]] + files[i + 1..], downloads);
    DownloadedAppend([files[i]], files[i + 1..], downloads);
    DownloadedAppend(files[..i], files[i + 1..], downloads);
    assert Downloaded([files[i]], downloads) == [] by {
      assert [files[i]][..0] == [];
    }
  }

  /** When every download succeeds, each listed file yields one image, in listing order. */
  lemma {:induction false} AllDownloaded(files: seq<DriveFile>, downloads: map<string, Bytes>)
    requires forall f | f in files :: f.id in downloads
    ensures |Downloaded(files, downloads)| == |files|
    ensures forall i | 0 <= i < |files| ::
      Downloaded(files, downloads)[i] == ToImage(files[i], downloads[files[i].id])
  {
    if files != [] {
      var prefix := files[..|files| - 1];
      assert forall f | f in prefix :: f in files;
      AllDownloaded(prefix, downloads);
    }
  }

  /** `fetchImagesFromFolder`: a URL without a folder id fails before any listing. */
  function Fetch(url: string, drive: Drive, ghost rank: string -> nat): (r: Result<seq<ImageFile>>)
    requires Ranked(drive.listing, rank)
    ensures ExtractFolderId(url).None? ==> r == Err(InvalidUrlMessage)
    ensures ExtractFolderId(url).Some? && r.Err? ==> StartsWith(r.message, AccessFailedPrefix)
  {
    match ExtractFolderId(url)
    case None => Err(InvalidUrlMessage)
    case Some(folderId) =>
      match Traverse(drive.listing, rank, [folderId])
      case Err(e) => Err(e)
      case Ok(files) => Ok(Downloaded(files, drive.downloads))
  }

  /** The download loop: each listed file is downloaded in turn, and a failed download is skipped. */
  method DownloadAll(imageFiles: seq<DriveFile>, downloads: map<string, Bytes>) returns (downloadedImages: seq<ImageFile>)
    ensures downloadedImages == Downloaded(imageFiles, downloads)
  {
    downloadedImages := [];
    for k := 0 to |imageFiles|
      invariant downloadedImages == Downloaded(imageFiles[..k], downloads)
    {
      assert imageFiles[..k + 1][..k] == imageFiles[..k];
      var file := imageFiles[k];
      if file.id in downloads {
        downloadedImages := downloadedImages + [ToImage(file, downloads[file.id])];
      }
    }
    assert imageFiles[..|imageFiles|] == imageFiles;
  }

  /** `fetchImagesFromFolder`, with its download loop. */
  method FetchImagesFromFolder(url: string, drive: Drive, ghost rank: string -> nat) returns (r: Result<seq<ImageFile>>)
    requires Ranked(drive.listing, rank)
    ensures r == Fetch(url, drive, rank)
  {
    var folderId := ExtractFolderId(url);
    if folderId.None? {
      return Err(InvalidUrlMessage);
    }
    var listed := ListFilesRecursive(drive.listing, rank, folderId.value);
    if listed.Err? {
      return Err(listed.message);
    }
    var downloadedImages := DownloadAll(listed.value, drive.downloads);
    r := Ok(downloadedImages);
  }

  /** `verifyFolderAccess`: false without a folder id, and false when the lookup fails. */
  function VerifyFolderAccess(url: string, drive: Drive): (ok: bool)
    ensures ok <==> ExtractFolderId(url).Some? && ExtractFolderId(url).value in drive.lookups
    ensures (forall k: nat :: !PatternAt(url, FoldersPrefix, k) && !PatternAt(url, IdPrefix, k)) ==> !ok
  {
    match ExtractFolderId(url)
    case None => false
    case Some(folderId) => folderId in drive.lookups
  }
}
