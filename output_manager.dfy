/**
 * The output manager: when a history entry counts as finished, listing the
 * output files of a prompt (with the fallback to the full history and the
 * counted retry), the base64 download decisions (mime type, quality clamp,
 * WebP conversion) and the names `downloadAllOutputs` writes.
 */
module Outputs {
  import opened Wrappers
  import opened Objects
  import opened JsonValues
  import opened ApiTypes
  import Text
  import CC = ComfyClient

  /** `FINAL_STATUS_STRINGS`. */
  const FINAL_STATUS_STRINGS: seq<string> := ["success", "finished", "error", "canceled", "cached"]

  const LIST_OUTPUTS_MAX_RETRIES: nat := 3

  /** `status?.status_str?.toLowerCase()`, kept only when non-empty (truthy). */
  function LoweredStatus(e: HistoryEntry): Option<string>
  {
    match StatusStr(e)
    case Some(s) => if s != "" then Some(Text.Lower(s)) else None
    case None => None
  }

  /** `isHistoryEntryFinal(entry)`. */
  predicate IsHistoryEntryFinal(e: HistoryEntry)
  {
    HasErrorMessages(e)
    || (LoweredStatus(e).Some? && LoweredStatus(e).value in FINAL_STATUS_STRINGS)
    || HasOutputs(e)
  }

  // ------------------------------------------------------------ listing

  datatype FileKind = Image | Gif

  /** The `/view` query an output's URL names; its percent-encoding is not modelled. */
  datatype ViewUrl = ViewUrl(filename: string, subfolder: Option<string>, kind: string)

  /** `buildViewUrl(filename, subfolder, type)`: the subfolder is set only when truthy. */
  function BuildViewUrl(filename: string, subfolder: Option<string>, kind: string): (u: ViewUrl)
    ensures u.filename == filename && u.kind == kind
    ensures u.subfolder.Some? <==> subfolder.Some? && subfolder.value != ""
    ensures u.subfolder.Some? ==> u.subfolder == subfolder
  {
    ViewUrl(filename, if subfolder.Some? && subfolder.value != "" then subfolder else None, kind)
  }

  /** `OutputFile` as `listOutputs` builds it. */
  datatype OutputFile = OutputFile(promptId: string, nodeId: string, kind: FileKind,
                                   filename: string, subfolder: string, url: ViewUrl)

  function FileOf(promptId: string, nodeId: string, kind: FileKind, img: ImageOutput): (f: OutputFile)
    ensures f.promptId == promptId && f.nodeId == nodeId && f.kind == kind && f.filename == img.filename
    ensures f.subfolder == img.subfolder.GetOr("")
    ensures f.url == BuildViewUrl(img.filename, img.subfolder, img.kind.GetOr("output"))
  {
    OutputFile(promptId, nodeId, kind, img.filename, img.subfolder.GetOr(""),
               BuildViewUrl(img.filename, img.subfolder, img.kind.GetOr("output")))
  }

  /** The files of one list of records, in order. */
  function FilesOf(promptId: string, nodeId: string, kind: FileKind, imgs: seq<ImageOutput>): (r: seq<OutputFile>)
    ensures |r| == |imgs|
    ensures forall i | 0 <= i < |imgs| :: r[i] == FileOf(promptId, nodeId, kind, imgs[i])
  {
    seq(|imgs|, i requires 0 <= i < |imgs| => FileOf(promptId, nodeId, kind, imgs[i]))
  }

  /** One node's files: its images, then its gifs. */
  function NodeFiles(promptId: string, nodeId: string, out: NodeOutput): seq<OutputFile>
  {
    FilesOf(promptId, nodeId, Image, out.images.GetOr([])) + FilesOf(promptId, nodeId, Gif, out.gifs.GetOr([]))
  }

  /** All files of an entry's outputs, node by node in key order. */
  function ExtractFiles(promptId: string, outputs: seq<(string, NodeOutput)>): seq<OutputFile>
  {
    if outputs == [] then []
    else ExtractFiles(promptId, outputs[..|outputs| - 1]) +
         NodeFiles(promptId, outputs[|outputs| - 1].0, outputs[|outputs| - 1].1)
  }

  /** Every extracted file belongs to the prompt and names a node of the outputs. */
  lemma {:induction false} ExtractedFilesTagged(promptId: string, outputs: seq<(string, NodeOutput)>)
    ensures forall f | f in ExtractFiles(promptId, outputs) ::
      f.promptId == promptId && f.nodeId in Keys(outputs)
    decreases |outputs|
  {
    if outputs != [] {
      var init := outputs[..|outputs| - 1];
      ExtractedFilesTagged(promptId, init);
      assert Keys(outputs) == Keys(init) + [outputs[|outputs| - 1].0];
    }
  }

  /** Every image and every gif of every node yields its file. */
  lemma {:induction false} ExtractedFilesComplete(promptId: string, outputs: seq<(string, NodeOutput)>, k: nat)
    requires k < |outputs|
    ensures var o := outputs[k];
      (forall i | 0 <= i < |o.1.images.GetOr([])| ::
        FileOf(promptId, o.0, Image, o.1.images.GetOr([])[i]) in ExtractFiles(promptId, outputs)) &&
      (forall i | 0 <= i < |o.1.gifs.GetOr([])| ::
        FileOf(promptId, o.0, Gif, o.1.gifs.GetOr([])[i]) in ExtractFiles(promptId, outputs))
    decreases |outputs|
  {
    var last := |outputs| - 1;
    var o := outputs[k];
    if k < last {
      ExtractedFilesComplete(promptId, outputs[..last], k);
      assert outputs[..last][k] == o;
    } else {
      var n := NodeFiles(promptId, o.0, o.1);
      var imgs := o.1.images.GetOr([]);
      var gifs := o.1.gifs.GetOr([]);
      forall i | 0 <= i < |imgs| ensures FileOf(promptId, o.0, Image, imgs[i]) in ExtractFiles(promptId, outputs) {
        assert n[i] == FileOf(promptId, o.0, Image, imgs[i]);
      }
      forall i | 0 <= i < |gifs| ensures FileOf(promptId, o.0, Gif, gifs[i]) in ExtractFiles(promptId, outputs) {
        assert n[|imgs| + i] == FileOf(promptId, o.0, Gif, gifs[i]);
      }
    }
  }

  /** The `files` loop of `tryList`: for each node, push its images, then its gifs. */
  method CollectFiles(promptId: string, outputs: Obj<NodeOutput>) returns (files: seq<OutputFile>)
    ensures files == ExtractFiles(promptId, outputs)
  {
    files := [];
    var k := 0;
    while k < |outputs|
      invariant k <= |outputs|
      invariant files == ExtractFiles(promptId, outputs[..k])
    {
      var (nodeId, out) := outputs[k];
      ghost var before := files;
      var images := out.images.GetOr([]);
      var i := 0;
      while i < |images|
        invariant i <= |images|
        invariant files == before + FilesOf(promptId, nodeId, Image, images[..i])
      {
        files := files + [FileOf(promptId, nodeId, Image, images[i])];
        i := i + 1;
        assert FilesOf(promptId, nodeId, Image, images[..i]) ==
          FilesOf(promptId, nodeId, Image, images[..i - 1]) + [FileOf(promptId, nodeId, Image, images[i - 1])];
      }
      assert images[..i] == images;
      ghost var mid := files;
      var gifs := out.gifs.GetOr([]);
      var g := 0;
      while g < |gifs|
        invariant g <= |gifs|
        invariant files == mid + FilesOf(promptId, nodeId, Gif, gifs[..g])
      {
        files := files + [FileOf(promptId, nodeId, Gif, gifs[g])];
        g := g + 1;
        assert FilesOf(promptId, nodeId, Gif, gifs[..g]) ==
          FilesOf(promptId, nodeId, Gif, gifs[..g - 1]) + [FileOf(promptId, nodeId, Gif, gifs[g - 1])];
      }
      assert gifs[..g] == gifs;
      assert outputs[..k + 1][..k] == outputs[..k];
      k := k + 1;
    }
    assert outputs[..k] == outputs;
  }

  datatype ListError = HistoryFailed(cause: CC.ClientError) | NotCompleted(promptId: string, status: string)

  /** `allEntries.find(e => (e.prompt_id ?? '') === promptId)`. */
  function FindEntry(entries: seq<HistoryEntry>, promptId: string): (r: Option<HistoryEntry>)
    ensures r.Some? ==> r.value in entries && r.value.promptId.GetOr("") == promptId
    ensures r.None? <==> forall i | 0 <= i < |entries| :: entries[i].promptId.GetOr("") != promptId
    ensures r.Some? && entries[0].promptId.GetOr("") != promptId ==> r == FindEntry(entries[1..], promptId)
  {
    if entries == [] then None
    else if entries[0].promptId.GetOr("") == promptId then Some(entries[0])
    else FindEntry(entries[1..], promptId)
  }

  function DecodeAll(js: seq<Json>): (r: seq<HistoryEntry>)
    ensures |r| == |js| && forall i | 0 <= i < |js| :: r[i] == DecodeEntry(js[i])
  {
    seq(|js|, i requires 0 <= i < |js| => DecodeEntry(js[i]))
  }

  /**
   * The entries `tryList` works on: those of `GET /history/{id}`, or, when
   * there are none, the entry of the full history whose `prompt_id` is the id.
   * `byId` and `all` are the results of the two requests; the second one is
   * only consulted when the first yields nothing.
   */
  function ListEntries(promptId: string, byId: Result<seq<Json>, CC.ClientError>,
                       all: Result<seq<Json>, CC.ClientError>): (r: Result<seq<HistoryEntry>, ListError>)
    ensures byId.Failure? ==> r == Failure(HistoryFailed(byId.error))
    ensures byId.Success? && byId.value != [] ==> r == Success(DecodeAll(byId.value))
    ensures byId.Success? && byId.value == [] && all.Failure? ==> r == Failure(HistoryFailed(all.error))
    ensures byId.Success? && byId.value == [] && all.Success? ==>
      r.Success? && |r.value| <= 1 &&
      (r.value == [] <==> FindEntry(DecodeAll(all.value), promptId).None?) &&
      (r.value != [] ==> r.value[0].promptId.GetOr("") == promptId)
  {
    match byId
    case Failure(e) => Failure(HistoryFailed(e))
    case Success(entries) =>
      if entries != [] then Success(DecodeAll(entries))
      else
        match all
        case Failure(e) => Failure(HistoryFailed(e))
        case Success(allEntries) =>
          match FindEntry(DecodeAll(allEntries), promptId)
          case Some(m) => Success([m])
          case None => Success([])
  }

  /** `tryList`'s guard: no outputs and a non-final, non-empty `status_str`. */
  predicate StillRunning(e: HistoryEntry)
  {
    !HasOutputs(e) && LoweredStatus(e).Some? && LoweredStatus(e).value !in FINAL_STATUS_STRINGS
  }

  /** `tryList()`: no entry gives no files; a running entry is an error; otherwise the entry's files. */
  function TryList(promptId: string, byId: Result<seq<Json>, CC.ClientError>,
                   all: Result<seq<Json>, CC.ClientError>): (r: Result<seq<OutputFile>, ListError>)
    ensures ListEntries(promptId, byId, all).Failure? ==> r == Failure(ListEntries(promptId, byId, all).error)
    ensures ListEntries(promptId, byId, all) == Success([]) ==> r == Success([])
    ensures ListEntries(promptId, byId, all).Success? && ListEntries(promptId, byId, all).value != [] ==>
      var e := ListEntries(promptId, byId, all).value[0];
      (StillRunning(e) ==> r == Failure(NotCompleted(promptId, LoweredStatus(e).value))) &&
      (!StillRunning(e) ==> r == Success(ExtractFiles(promptId, e.outputs.GetOr([]))))
  {
    match ListEntries(promptId, byId, all)
    case Failure(err) => Failure(err)
    case Success(entries) =>
      if entries == [] then Success([])
      else
        var e := entries[0];
        if StillRunning(e) then Failure(NotCompleted(promptId, LoweredStatus(e).value))
        else Success(ExtractFiles(promptId, e.outputs.GetOr([])))
  }

  /** The "not completed yet" error is raised only for entries that are not final. */
  lemma StillRunningNotFinal(e: HistoryEntry)
    ensures StillRunning(e) && !HasErrorMessages(e) ==> !IsHistoryEntryFinal(e)
    ensures !IsHistoryEntryFinal(e) && LoweredStatus(e).Some? ==> StillRunning(e)
  {
  }

  /**
   * With the empty-object reading of `GET /history/{id}`, a prompt the
   * engine does not list yet falls back to the full history.
   */
  lemma FreshPromptFallsBack(promptId: string, res: CC.HttpResponse, all: Result<seq<Json>, CC.ClientError>)
    requires promptId != "" && res.ok && res.body == Some(JObj([]))
    ensures all.Failure? ==>
      ListEntries(promptId, CC.GetHistory(Some(promptId), res), all) == Failure(HistoryFailed(all.error))
    ensures all.Success? ==>
      ListEntries(promptId, CC.GetHistory(Some(promptId), res), all) ==
        if FindEntry(DecodeAll(all.value), promptId).Some?
        then Success([FindEntry(DecodeAll(all.value), promptId).value])
        else Success([])
  {
  }

  /** A `tryList` attempt yielded files. */
  predicate Yielded(a: Result<seq<OutputFile>, ListError>)
  {
    a.Success? && a.value != []
  }

  /**
   * The retry loop of `listOutputs`: up to three attempts; the first one that
   * yields files wins; an error is rethrown only from the last attempt, and
   * three fruitless attempts give `[]`. `attempts[k]` is attempt `k`'s outcome.
   */
  method ListOutputs(attempts: seq<Result<seq<OutputFile>, ListError>>)
    returns (r: Result<seq<OutputFile>, ListError>, used: nat)
    requires |attempts| >= LIST_OUTPUTS_MAX_RETRIES
    ensures 1 <= used <= LIST_OUTPUTS_MAX_RETRIES
    ensures forall k | 0 <= k < used - 1 :: !Yielded(attempts[k])
    ensures Yielded(attempts[used - 1]) ==> r == attempts[used - 1]
    ensures !Yielded(attempts[used - 1]) ==> used == LIST_OUTPUTS_MAX_RETRIES
    ensures r.Failure? ==> used == LIST_OUTPUTS_MAX_RETRIES && r == attempts[used - 1]
    ensures r.Success? && r.value == [] ==> used == LIST_OUTPUTS_MAX_RETRIES
    ensures r == attempts[used - 1]
  {
    var attempt := 0;
    while attempt < LIST_OUTPUTS_MAX_RETRIES
      invariant attempt <= LIST_OUTPUTS_MAX_RETRIES
      invariant forall k | 0 <= k < attempt :: !Yielded(attempts[k])
      invariant forall k | 0 <= k < attempt :: attempts[k].Failure? ==> k < LIST_OUTPUTS_MAX_RETRIES - 1
    {
      var outcome := attempts[attempt];
      if outcome.Success? && |outcome.value| > 0 {
        return outcome, attempt + 1;
      }
      if outcome.Failure? && attempt == LIST_OUTPUTS_MAX_RETRIES - 1 {
        return outcome, attempt + 1;
      }
      attempt := attempt + 1;
    }
    r, used := Success([]), LIST_OUTPUTS_MAX_RETRIES;
  }

  // ------------------------------------------------------------ downloads

  const BASE64_CONVERT_THRESHOLD_BYTES: int := 800 * 1024
  const WEBP_QUALITY: real := 85.0

  /** The lower-cased extension the download decisions look at. */
  function Extension(filename: string): string
  {
    Text.Lower(Text.AfterLast(filename, '.'))
  }

  predicate IsImageExtension(ext: string)
  {
    ext == "png" || ext == "jpg" || ext == "jpeg" || ext == "webp" || ext == "gif"
  }

  /** The mime type chosen by extension. */
  function MimeFor(ext: string): (m: string)
    ensures !IsImageExtension(ext) ==> m == "application/octet-stream"
    ensures ext == "png" ==> m == "image/png"
    ensures ext == "jpg" || ext == "jpeg" ==> m == "image/jpeg"
    ensures ext == "webp" ==> m == "image/webp"
    ensures ext == "gif" ==> m == "image/gif"
  {
    if ext == "png" then "image/png"
    else if ext == "jpg" || ext == "jpeg" then "image/jpeg"
    else if ext == "webp" then "image/webp"
    else if ext == "gif" then "image/gif"
    else "application/octet-stream"
  }

  /** `Math.min(100, Math.max(1, q ?? 85))`. */
  function ClampQuality(q: Option<real>): (r: real)
    ensures 1.0 <= r <= 100.0
    ensures q.None? ==> r == WEBP_QUALITY
    ensures q.Some? && 1.0 <= q.value <= 100.0 ==> r == q.value
    ensures q.Some? && q.value < 1.0 ==> r == 1.0
    ensures q.Some? && q.value > 100.0 ==> r == 100.0
  {
    var v := q.GetOr(WEBP_QUALITY);
    var lo := if v > 1.0 then v else 1.0;
    if lo < 100.0 then lo else 100.0
  }

  predicate IsAsciiLetter(c: char)
  {
    ('a' <= c <= 'z') || ('A' <= c <= 'Z')
  }

  /** `filename.replace(/\.[a-z]+$/i, '.webp')`. */
  function WebpName(filename: string): (r: string)
  {
    var seg := Text.AfterLast(filename, '.');
    if |seg| < |filename| && seg != [] && forall i | 0 <= i < |seg| :: IsAsciiLetter(seg[i]) then
      filename[..|filename| - |seg| - 1] + ".webp"
    else filename
  }

  /** The last segment of a name that holds a `.` is a proper suffix. */
  lemma LastSegmentProper(filename: string)
    requires '.' in filename
    ensures |Text.AfterLast(filename, '.')| < |filename|
  {
  }

  /** Only ASCII letters lower-case to an ASCII lower-case letter. */
  lemma LowerLettersOnly(seg: string)
    requires IsImageExtension(Text.Lower(seg))
    ensures seg != [] && forall i | 0 <= i < |seg| :: IsAsciiLetter(seg[i])
  {
    var ext := Text.Lower(seg);
    forall i | 0 <= i < |seg| ensures IsAsciiLetter(seg[i]) {
      assert 'a' <= ext[i] <= 'z';
      assert ext[i] == Text.LowerChar(seg[i]);
    }
  }

  /** An image name (png/jpg/jpeg/webp/gif in any case) keeps its stem and gets the `.webp` extension. */
  lemma WebpNameOfImage(filename: string)
    requires '.' in filename && IsImageExtension(Extension(filename))
    ensures WebpName(filename) == filename[..|filename| - |Text.AfterLast(filename, '.')| - 1] + ".webp"
    ensures Extension(WebpName(filename)) == "webp"
  {
    var seg := Text.AfterLast(filename, '.');
    LastSegmentProper(filename);
    LowerLettersOnly(seg);
    var stem := filename[..|filename| - |seg| - 1];
    assert WebpName(filename) == stem + ".webp";
    WebpExtension(stem);
  }

  lemma WebpExtension(stem: string)
    ensures Extension(stem + ".webp") == "webp"
  {
    assert stem + ".webp" == stem + "." + "webp";
    LastSegmentAfterDot(stem, "webp");
  }

  lemma LastSegmentAfterDot(stem: string, tail: string)
    requires '.' !in tail
    ensures Text.AfterLast(stem + "." + tail, '.') == tail
    decreases |tail|
  {
    if tail == [] {
    } else {
      var s := stem + "." + tail;
      assert s[..|s| - 1] == stem + "." + tail[..|tail| - 1];
      LastSegmentAfterDot(stem, tail[..|tail| - 1]);
    }
  }

  /** What the base64 branch of `downloadByFilename` returns, bytes aside. */
  datatype Base64Download = Base64Download(filename: string, mime: string, quality: real,
                                           converted: bool, originalSize: Option<nat>)

  /** Conversion is attempted for an image extension when `maxBytes > 0 && size > maxBytes`. */
  predicate ShouldConvert(filename: string, size: nat, maxBase64Bytes: Option<int>)
  {
    IsImageExtension(Extension(filename)) &&
    maxBase64Bytes.GetOr(BASE64_CONVERT_THRESHOLD_BYTES) > 0 &&
    size > maxBase64Bytes.GetOr(BASE64_CONVERT_THRESHOLD_BYTES)
  }

  /**
   * The base64 branch of `downloadByFilename`: `encoderSucceeds` is whether
   * the WebP encoder returned; when it throws the original is kept.
   */
  function DownloadBase64(filename: string, size: nat, maxBase64Bytes: Option<int>,
                          convertQuality: Option<real>, encoderSucceeds: bool): (r: Base64Download)
    ensures r.converted <==> ShouldConvert(filename, size, maxBase64Bytes) && encoderSucceeds
    ensures r.converted ==> r.mime == "image/webp" && r.filename == WebpName(filename) && r.originalSize == Some(size)
    ensures !r.converted ==> r.mime == MimeFor(Extension(filename)) && r.filename == filename && r.originalSize.None?
    ensures r.quality == ClampQuality(convertQuality)
    ensures maxBase64Bytes == Some(0) ==> !r.converted
  {
    var quality := ClampQuality(convertQuality);
    var ext := Extension(filename);
    if ShouldConvert(filename, size, maxBase64Bytes) && encoderSucceeds then
      Base64Download(WebpName(filename), "image/webp", quality, true, Some(size))
    else Base64Download(filename, MimeFor(ext), quality, false, None)
  }

  // ----------------------------------------------------- download-all names

  /** `path.join(dir, name)`, without its normalisation of `.`/`..` and repeated separators. */
  function JoinPath(dir: string, name: string): string
  {
    dir + "/" + name
  }

  /** `prefixNodeId !== false`. */
  predicate PrefixOn(prefixNodeId: Option<bool>)
  {
    prefixNodeId != Some(false)
  }

  function BaseName(f: OutputFile, prefix: bool): (n: string)
    ensures Text.EndsWith(n, f.filename)
    ensures prefix ==> Text.StartsWith(n, f.nodeId + "_")
    ensures prefix ==> |n| == |f.nodeId| + 1 + |f.filename|
    ensures !prefix ==> n == f.filename
  {
    if prefix then
      var n := f.nodeId + "_" + f.filename;
      assert n[|n| - |f.filename|..] == f.filename;
      assert n[..|f.nodeId + "_"|] == f.nodeId + "_";
      n
    else f.filename
  }

  /** The path `downloadAllOutputs` gives file `f`. */
  function TargetPath(destDir: string, f: OutputFile, prefixNodeId: Option<bool>): string
  {
    JoinPath(destDir, BaseName(f, PrefixOn(prefixNodeId)))
  }

  /** What the `/view` request of one file answered: a status, or a thrown error. */
  datatype ViewAnswer = Answered(ok: bool, status: nat) | FetchThrew(message: string)

  /** Why `downloadOutput` threw: `ComfyUI /view failed (<status>): <url>`, or the fetch's own error. */
  datatype DownloadError = ViewFailed(status: nat, url: ViewUrl) | FetchError(message: string)

  predicate AnswerOk(a: ViewAnswer)
  {
    a.Answered? && a.ok
  }

  function ErrorOf(f: OutputFile, a: ViewAnswer): DownloadError
    requires !AnswerOk(a)
  {
    if a.FetchThrew? then FetchError(a.message) else ViewFailed(a.status, f.url)
  }

  /**
   * `downloadAllOutputs`: the files are downloaded in order, `answers[i]`
   * being what the request for `files[i]` answered. The first failing
   * download throws out of the loop; `written` are the paths written
   * before it, and the paths are returned only when every download worked.
   */
  method DownloadPaths(destDir: string, files: seq<OutputFile>, prefixNodeId: Option<bool>, answers: seq<ViewAnswer>)
    returns (r: Result<seq<string>, DownloadError>, written: seq<string>)
    requires |answers| == |files|
    ensures |written| <= |files|
    ensures forall i | 0 <= i < |written| :: written[i] == TargetPath(destDir, files[i], prefixNodeId) && AnswerOk(answers[i])
    ensures r.Success? <==> forall i | 0 <= i < |files| :: AnswerOk(answers[i])
    ensures r.Success? ==> r.value == written && |written| == |files|
    ensures r.Failure? ==>
      |written| < |files| && !AnswerOk(answers[|written|]) && r.error == ErrorOf(files[|written|], answers[|written|])
  {
    var prefix := prefixNodeId != Some(false);
    written := [];
    var i := 0;
    while i < |files|
      invariant i <= |files| && |written| == i
      invariant forall j | 0 <= j < i :: written[j] == TargetPath(destDir, files[j], prefixNodeId) && AnswerOk(answers[j])
    {
      var f := files[i];
      var baseName := if prefix then f.nodeId + "_" + f.filename else f.filename;
      var destPath := JoinPath(destDir, baseName);
      match answers[i]
      case FetchThrew(msg) =>
        return Failure(FetchError(msg)), written;
      case Answered(ok, status) =>
        if !ok {
          return Failure(ViewFailed(status, f.url)), written;
        }
      written := written + [destPath];
      i := i + 1;
    }
    r := Success(written);
  }
}
