/** Image hosting: the per-file upload with its result normalisation and the batch
    aggregation. The hosting service itself is outside the model: what it answered to
    the i-th request is the parameter `service(i)`. */
module ImageUpload {
  import opened Js
  import opened Seqs

  const NoFileMessage: string := "No image file provided"
  const UploadFailedMessage: string := "Failed to upload image"
  const BatchFailedMessage: string := "Failed to upload images"

  /** The entry handed to the uploader: a file, or nothing (a falsy value). */
  datatype FileRef = NoFile | FileBlob(name: string)

  /** What the hosting request produced: a success body with the hosted image, a body
      with `success` false and perhaps `error.message`, or a throw (network failure or a
      body that is not JSON) with perhaps a message. */
  datatype ServiceReply =
    | Hosted(url: string, displayUrl: string, deleteUrl: string, size: nat)
    | Refused(message: Option<string>)
    | Unreachable(message: Option<string>)

  /** The normalised per-file result. */
  datatype UploadResult =
    | Uploaded(url: string, displayUrl: string, deleteUrl: string, size: nat)
    | NotUploaded(error: string)

  /** How `uploadImageToImgBB`'s promise settles: with a result, or rejected. */
  datatype UploadOutcome = Returned(result: UploadResult) | Thrown(message: string)

  /** `uploadImageToImgBB`: a missing file rejects before any request; otherwise every
      service answer becomes a result, failures carrying a non-empty message. */
  function UploadImage(file: FileRef, reply: ServiceReply): (r: UploadOutcome)
    ensures file.NoFile? <==> r == Thrown(NoFileMessage)
    ensures file.FileBlob? ==> r.Returned?
    ensures file.FileBlob? && reply.Hosted? ==>
      r.result == Uploaded(reply.url, reply.displayUrl, reply.deleteUrl, reply.size)
    ensures file.FileBlob? && !reply.Hosted? ==>
      r.result == NotUploaded(StrOr(reply.message, UploadFailedMessage)) && r.result.error != ""
  {
    if file.NoFile? then Thrown(NoFileMessage)
    else
      match reply
      case Hosted(url, displayUrl, deleteUrl, size) => Returned(Uploaded(url, displayUrl, deleteUrl, size))
      case Refused(message) =>
        // the thrown message is caught by the same function and defaulted again
        var thrown := StrOr(message, UploadFailedMessage);
        Returned(NotUploaded(StrOr(Some(thrown), UploadFailedMessage)))
      case Unreachable(message) => Returned(NotUploaded(StrOr(message, UploadFailedMessage)))
  }

  /** The batch result: `error` is present only when the batch itself threw. */
  datatype BatchResult = BatchResult(
    success: bool,
    error: Option<string>,
    uploaded: seq<UploadResult>,
    failed: seq<UploadResult>,
    urls: seq<string>)

  predicate IsUploaded(r: UploadResult) { r.Uploaded? }
  predicate IsNotUploaded(r: UploadResult) { r.NotUploaded? }

  /** The per-file results in file order (what `Promise.all` resolves to). */
  function Results(files: seq<FileRef>, service: nat -> ServiceReply): (rs: seq<UploadResult>)
    requires NoFile !in files
    ensures |rs| == |files|
    ensures forall i :: 0 <= i < |files| ==> rs[i] == UploadImage(files[i], service(i)).result
  {
    seq(|files|, i requires 0 <= i < |files| && NoFile !in files => UploadImage(files[i], service(i)).result)
  }

  /** The `url` of each result, in order. */
  function Urls(rs: seq<UploadResult>): (us: seq<string>)
    requires forall r :: r in rs ==> r.Uploaded?
    ensures |us| == |rs| && forall i :: 0 <= i < |rs| ==> us[i] == rs[i].url
  {
    if rs == [] then [] else [rs[0].url] + Urls(rs[1..])
  }

  /** `uploadMultipleImages`: upload every file; if any upload rejects (a missing file)
      the batch catches it and reports nothing uploaded; otherwise the results are split
      into successes and failures and the successes' urls are collected. */
  function UploadMultipleImages(files: seq<FileRef>, service: nat -> ServiceReply): (b: BatchResult)
    ensures NoFile in files ==> b == BatchResult(false, Some(NoFileMessage), [], [], [])
    ensures NoFile !in files ==> b.error.None? && (b.success <==> b.failed == [])
    ensures forall r :: r in b.uploaded ==> r.Uploaded?
    ensures forall r :: r in b.failed ==> r.NotUploaded? && r.error != ""
    ensures |b.urls| == |b.uploaded| && forall i :: 0 <= i < |b.urls| ==> b.urls[i] == b.uploaded[i].url
  {
    if NoFile in files then
      BatchResult(false, Some(StrOr(Some(NoFileMessage), BatchFailedMessage)), [], [], [])
    else
      var results := Results(files, service);
      var successful := Filter(results, IsUploaded);
      var failed := Filter(results, IsNotUploaded);
      BatchResult(|failed| == 0, None, successful, failed, Urls(successful))
  }

  /** Without a missing file, `uploaded` and `failed` split the results: together they
      hold every result exactly once, and each keeps file order. */
  lemma BatchPartition(files: seq<FileRef>, service: nat -> ServiceReply)
    requires NoFile !in files
    ensures var b := UploadMultipleImages(files, service);
      && multiset(b.uploaded) + multiset(b.failed) == multiset(Results(files, service))
      && |b.uploaded| + |b.failed| == |files|
      && IsSubsequence(b.uploaded, Results(files, service))
      && IsSubsequence(b.failed, Results(files, service))
  {
    var results := Results(files, service);
    FilterPartition(results, IsUploaded, IsNotUploaded);
    FilterIsSubsequence(results, IsUploaded);
    FilterIsSubsequence(results, IsNotUploaded);
  }

  /** The batch succeeds exactly when every file is present and every upload was hosted. */
  lemma BatchSuccessIffAllHosted(files: seq<FileRef>, service: nat -> ServiceReply)
    ensures UploadMultipleImages(files, service).success
        <==> NoFile !in files && forall i :: 0 <= i < |files| ==> service(i).Hosted?
  {
    if NoFile !in files {
      var results := Results(files, service);
      var b := UploadMultipleImages(files, service);
      if exists i :: 0 <= i < |files| && !service(i).Hosted? {
        var i :| 0 <= i < |files| && !service(i).Hosted?;
        assert results[i] in results && IsNotUploaded(results[i]);
        assert results[i] in b.failed;
      }
      if b.failed != [] {
        assert b.failed[0] in b.failed;
        var k :| 0 <= k < |results| && results[k] == b.failed[0];
        assert !service(k).Hosted?;
      }
    }
  }

  /** Every hosted upload's url appears among `urls`, and nothing else does. */
  lemma BatchUrlsAreHostedUrls(files: seq<FileRef>, service: nat -> ServiceReply)
    requires NoFile !in files
    ensures forall u :: (u in UploadMultipleImages(files, service).urls
                         <==> exists i :: 0 <= i < |files| && service(i).Hosted? && service(i).url == u)
  {
    var results := Results(files, service);
    var b := UploadMultipleImages(files, service);
    forall u | u in b.urls ensures exists i :: 0 <= i < |files| && service(i).Hosted? && service(i).url == u {
      var j :| 0 <= j < |b.urls| && b.urls[j] == u;
      assert b.uploaded[j] in b.uploaded;
      var i :| 0 <= i < |results| && results[i] == b.uploaded[j];
      assert service(i).Hosted?;
    }
    forall u | exists i :: 0 <= i < |files| && service(i).Hosted? && service(i).url == u ensures u in b.urls {
      var i :| 0 <= i < |files| && service(i).Hosted? && service(i).url == u;
      assert results[i] in results && IsUploaded(results[i]);
      assert results[i] in b.uploaded;
      var j :| 0 <= j < |b.uploaded| && b.uploaded[j] == results[i];
      assert b.urls[j] == u;
    }
  }

  /** A batch that threw reports failure with nothing failed: `success` is not the same
      as "`failed` is empty" once a file is missing. */
  lemma MissingFileBatch()
    ensures var b := UploadMultipleImages([FileBlob("a.png"), NoFile], _ => Hosted("u", "d", "x", 1));
      !b.success && b.failed == [] && b.error == Some(NoFileMessage)
  {
    assert NoFile in [FileBlob("a.png"), NoFile];
  }
}
