/** The add-product page as a state machine: drag state, the attached images, the form
    and its checkbox and textarea handlers, and `handleSubmit`, which runs the validation
    gates, then an optional upload stage that aborts on failure, then the insert, and
    resets the form only when the insert succeeds. The upload service and the insert
    call are given as their outcomes; the toasts shown are returned as notices. */
module Submission {
  import opened Js
  import opened Text
  import opened Seqs
  import opened ImageUpload
  import opened ProductForm

  /** A toast the page shows: its type, its message and its options. */
  datatype Notice = Notice(kind: string, message: string, options: map<string, Json>)

  /** What the insert call (`Mdata`) gives back: success, a failure with an optional
      error text, or an exception escaping into the page's `catch`. */
  datatype InsertReply = Inserted | InsertFailed(error: Option<string>) | InsertThrew

  /** The drag events the drop zone listens to. */
  datatype DragEvent = DragEnter | DragOver | DragLeave | OtherDrag

  const ProductAdded: string := "\U{1F389} Product added successfully! Your electronic gadget is now live."
  const UnexpectedError: string := "An unexpected error occurred. Please check your connection and try again."
  const UploadFailedPrefix: string := "Image upload failed: "

  function Duration(ms: real): map<string, Json>
  {
    map["duration" := JNum(ms)]
  }

  // ------------------------------------------------- the upload failure notice

  /** The notice as the page writes it: the batch's `error` interpolated, which is
      `undefined` unless the batch threw. */
  function UploadFailureNoticeAsWritten(batch: BatchResult): string
  {
    UploadFailedPrefix + Interpolate(batch.error)
  }

  /** Every failed batch of real files produces the notice "Image upload failed:
      undefined": the batch only sets `error` when a file is missing. */
  lemma UploadFailureNoticeSaysUndefined(files: seq<FileRef>, service: nat -> ServiceReply)
    requires NoFile !in files
    requires !UploadMultipleImages(files, service).success
    ensures UploadFailureNoticeAsWritten(UploadMultipleImages(files, service)) == "Image upload failed: undefined"
  {
  }

  /** The reason shown for a failed batch: the batch's own error when it has one, else
      the error of the first file that failed, else the generic batch message. */
  function UploadFailureReason(batch: BatchResult): (reason: string)
    ensures reason != ""
  {
    if batch.error.Some? && batch.error.value != "" then batch.error.value
    else if batch.failed != [] && batch.failed[0].NotUploaded? && batch.failed[0].error != "" then batch.failed[0].error
    else BatchFailedMessage
  }

  /** With the corrected reason, a failed batch of real files names the error of a file
      the service did not host, and the first such file in input order. */
  lemma UploadFailureNamesFirstFailedFile(files: seq<FileRef>, service: nat -> ServiceReply)
    requires NoFile !in files
    requires !UploadMultipleImages(files, service).success
    ensures exists i :: (0 <= i < |files| && !service(i).Hosted?
      && UploadFailureReason(UploadMultipleImages(files, service)) == Results(files, service)[i].error
      && forall j :: 0 <= j < i ==> service(j).Hosted?)
  {
    var rs := Results(files, service);
    var b := UploadMultipleImages(files, service);
    BatchPartition(files, service);
    assert b.failed == Filter(rs, IsNotUploaded);
    assert b.failed != [];
    FirstOfFilter(rs, IsNotUploaded);
    var i :| 0 <= i < |rs| && rs[i] == b.failed[0] && forall j :: 0 <= j < i ==> !IsNotUploaded(rs[j]);
    assert b.failed[0] in b.failed;
    assert rs[i] == UploadImage(files[i], service(i)).result;
    assert UploadFailureReason(b) == rs[i].error;
    forall j | 0 <= j < i ensures service(j).Hosted? {
      assert rs[j] == UploadImage(files[j], service(j)).result;
    }
    assert 0 <= i < |files| && !service(i).Hosted? && UploadFailureReason(b) == rs[i].error;
  }

  /** The first element a filter keeps is the first element of the input that passes. */
  lemma {:induction false} FirstOfFilter<T>(s: seq<T>, keep: T -> bool)
    requires Filter(s, keep) != []
    ensures exists i :: 0 <= i < |s| && s[i] == Filter(s, keep)[0] && forall j :: 0 <= j < i ==> !keep(s[j])
    decreases |s|
  {
    if keep(s[0]) {
      assert s[0] == Filter(s, keep)[0];
    } else {
      assert Filter(s, keep) == Filter(s[1..], keep);
      FirstOfFilter(s[1..], keep);
      var i :| 0 <= i < |s[1..]| && s[1..][i] == Filter(s[1..], keep)[0] && forall j :: 0 <= j < i ==> !keep(s[1..][j]);
      assert s[i + 1] == Filter(s, keep)[0];
      forall j | 0 <= j < i + 1 ensures !keep(s[j]) {
        if j > 0 { assert s[j] == s[1..][j - 1]; }
      }
    }
  }

  /** The info toast that opens the upload stage, counting the attached images. */
  function UploadingNotice(count: nat): Notice
  {
    Notice("info", "Uploading " + NatToString(count) + " images...", Duration(3000.0))
  }

  /** The success toast of the upload stage, counting the hosted urls. */
  function UploadedNotice(count: nat): Notice
  {
    Notice("success", "Successfully uploaded " + NatToString(count) + " images", Duration(2000.0))
  }

  /** The info toast that opens the insert stage. */
  const SavingNotice := Notice("info", "Saving product to database...", Duration(3000.0))

  /** The toasts of the optional upload stage: none without attached images, otherwise
      the count of attached images, then the hosted count or the failure notice. */
  function UploadToasts(images: seq<UploadedImage>, service: nat -> ServiceReply): seq<Notice>
  {
    if images == [] then []
    else
      var batch := UploadMultipleImages(Files(images), service);
      [UploadingNotice(|images|),
       if batch.success then UploadedNotice(|batch.urls|) else Notice("error", UploadFailureNoticeAsWritten(batch), map[])]
  }

  /** Every toast `handleSubmit` shows past its gates: the upload stage's, then, when the
      payload is sent, the insert stage's two around the insert's reply. */
  function SubmissionToasts(images: seq<UploadedImage>, service: nat -> ServiceReply, reply: Option<InsertReply>): seq<Notice>
  {
    UploadToasts(images, service) + (if reply.Some? then [SavingNotice, SaveNotice(reply.value)] else [])
  }

  /** The toast sequence toast by toast: the upload count first when images are attached,
      then the hosted count or the failure notice, and the insert's two toasts last. */
  lemma SubmissionToastsInOrder(images: seq<UploadedImage>, service: nat -> ServiceReply, reply: Option<InsertReply>)
    ensures var t := SubmissionToasts(images, service, reply);
      var batch := UploadMultipleImages(Files(images), service);
      && |t| == (if images == [] then 0 else 2) + (if reply.Some? then 2 else 0)
      && (images != [] ==> t[0] == UploadingNotice(|images|))
      && (images != [] && batch.success ==> t[1] == UploadedNotice(|batch.urls|))
      && (images != [] && !batch.success ==> t[1] == Notice("error", UploadFailureNoticeAsWritten(batch), map[]))
      && (reply.Some? ==> t[|t| - 2] == SavingNotice && t[|t| - 1] == SaveNotice(reply.value))
  {
  }

  /** The toast that follows the insert: the success message only for an accepted
      insert, the reply's error (or a default) for a refusal, and the generic message
      when the call throws. */
  function SaveNotice(reply: InsertReply): (n: Notice)
    ensures n.kind == "success" <==> reply.Inserted?
    ensures reply.Inserted? ==> n == Notice("success", ProductAdded, Duration(6000.0))
    ensures reply.InsertFailed? ==>
      n == Notice("error", "Failed to add product: " + StrOr(reply.error, "Unknown error occurred"), map[])
    ensures reply.InsertThrew? ==> n == Notice("error", UnexpectedError, map[])
  {
    match reply
    case Inserted => Notice("success", ProductAdded, Duration(6000.0))
    case InsertFailed(error) => Notice("error", "Failed to add product: " + StrOr(error, "Unknown error occurred"), map[])
    case InsertThrew => Notice("error", UnexpectedError, map[])
  }

  // ------------------------------------------------------------------- the page

  class AddProductPage {
    var form: Form
    var uploadedImages: seq<UploadedImage>
    var dragActive: bool
    var isSubmitting: bool
    var uploadProgress: string

    constructor()
      ensures form == InitialForm && uploadedImages == []
      ensures !dragActive && !isSubmitting && uploadProgress == ""
    {
      form := InitialForm;
      uploadedImages := [];
      dragActive := false;
      isSubmitting := false;
      uploadProgress := "";
    }

    /** `handleDrag`: entering or moving over the zone activates it, leaving deactivates it. */
    method HandleDrag(e: DragEvent)
      modifies this
      ensures dragActive == if e.DragEnter? || e.DragOver? then true else if e.DragLeave? then false else old(dragActive)
      ensures form == old(form) && uploadedImages == old(uploadedImages)
      ensures isSubmitting == old(isSubmitting) && uploadProgress == old(uploadProgress)
    {
      if e.DragEnter? || e.DragOver? {
        dragActive := true;
      } else if e.DragLeave? {
        dragActive := false;
      }
    }

    /** `handleFiles`: the files join the attached images, in order. */
    method HandleFiles(files: seq<FileRef>, preview: nat -> string, id: nat -> string)
      modifies this
      ensures uploadedImages == AddFiles(old(uploadedImages), files, preview, id)
      ensures form == old(form) && dragActive == old(dragActive)
      ensures isSubmitting == old(isSubmitting) && uploadProgress == old(uploadProgress)
    {
      uploadedImages := AddFiles(uploadedImages, files, preview, id);
    }

    /** `handleDrop`: the zone deactivates; the dropped files are attached when there are any. */
    method HandleDrop(files: seq<FileRef>, preview: nat -> string, id: nat -> string)
      modifies this
      ensures !dragActive
      ensures uploadedImages == if files != [] then AddFiles(old(uploadedImages), files, preview, id) else old(uploadedImages)
      ensures form == old(form) && isSubmitting == old(isSubmitting) && uploadProgress == old(uploadProgress)
    {
      dragActive := false;
      if files != [] {
        HandleFiles(files, preview, id);
      }
    }

    /** `removeImage`. */
    method RemoveImage(id: string)
      modifies this
      ensures uploadedImages == ProductForm.RemoveImage(old(uploadedImages), id)
      ensures form == old(form) && dragActive == old(dragActive)
      ensures isSubmitting == old(isSubmitting) && uploadProgress == old(uploadProgress)
    {
      uploadedImages := ProductForm.RemoveImage(uploadedImages, id);
    }

    /** `handleInputChange`. */
    method HandleInputChange(name: string, value: string, isCheckbox: bool, checked: bool)
      modifies this
      ensures form == InputChange(old(form), name, value, isCheckbox, checked)
      ensures uploadedImages == old(uploadedImages) && dragActive == old(dragActive)
      ensures isSubmitting == old(isSubmitting) && uploadProgress == old(uploadProgress)
    {
      form := InputChange(form, name, value, isCheckbox, checked);
    }

    /** A colour checkbox. */
    method ToggleColor(color: string, checked: bool)
      requires HasList(form, "colors")
      modifies this
      ensures form == ToggleTopLevel(old(form), "colors", color, checked)
      ensures uploadedImages == old(uploadedImages) && dragActive == old(dragActive)
      ensures isSubmitting == old(isSubmitting) && uploadProgress == old(uploadProgress)
    {
      form := ToggleTopLevel(form, "colors", color, checked);
    }

    /** A connectivity or port checkbox (`list` is "connectivity" or "ports"). */
    method ToggleSpecification(list: string, option: string, checked: bool)
      requires "specifications" in form && form["specifications"].JObj?
      requires HasList(form["specifications"].fields, list)
      modifies this
      ensures form == ToggleNested(old(form), "specifications", list, option, checked)
      ensures uploadedImages == old(uploadedImages) && dragActive == old(dragActive)
      ensures isSubmitting == old(isSubmitting) && uploadProgress == old(uploadProgress)
    {
      form := ToggleNested(form, "specifications", list, option, checked);
    }

    /** The features textarea's change handler. */
    method EditFeatures(text: string)
      modifies this
      ensures form == old(form)["features" := StrArray(ParseFeatures(text))]
      ensures uploadedImages == old(uploadedImages) && dragActive == old(dragActive)
      ensures isSubmitting == old(isSubmitting) && uploadProgress == old(uploadProgress)
    {
      form := form["features" := StrArray(ParseFeatures(text))];
    }

    /** The upload stage of `handleSubmit`: progress text and an info toast, then the
        batch; on success a second toast with the count, on failure the error toast. */
    method UploadStage(service: nat -> ServiceReply) returns (ok: bool, urls: seq<string>, shown: seq<Notice>)
      requires uploadedImages != []
      modifies this
      ensures ok == UploadMultipleImages(Files(uploadedImages), service).success
      ensures urls == if ok then UploadMultipleImages(Files(uploadedImages), service).urls else []
      ensures |shown| == 2
      ensures shown[0] == UploadingNotice(|uploadedImages|)
      ensures ok ==> shown[1] == UploadedNotice(|urls|)
      ensures ok ==> uploadProgress == "Successfully uploaded " + NatToString(|urls|) + " images"
      // a failed batch shows the batch's `error` as the page interpolates it
      ensures !ok ==> shown[1] == Notice("error", UploadFailureNoticeAsWritten(UploadMultipleImages(Files(uploadedImages), service)), map[])
      ensures !ok && NoFile !in Files(uploadedImages) ==> shown[1].message == "Image upload failed: undefined"
      ensures !ok ==> uploadProgress == "Uploading images..."
      ensures form == old(form) && uploadedImages == old(uploadedImages)
      ensures dragActive == old(dragActive) && isSubmitting == old(isSubmitting)
    {
      uploadProgress := "Uploading images...";
      shown := [UploadingNotice(|uploadedImages|)];
      var batch := UploadMultipleImages(Files(uploadedImages), service);
      ok := batch.success;
      urls := [];
      if ok {
        urls := batch.urls;
        uploadProgress := "Successfully uploaded " + NatToString(|urls|) + " images";
        shown := shown + [UploadedNotice(|urls|)];
      } else {
        shown := shown + [Notice("error", UploadFailureNoticeAsWritten(batch), map[])];
        if NoFile !in Files(uploadedImages) {
          UploadFailureNoticeSaysUndefined(Files(uploadedImages), service);
        }
      }
    }

    /** The optional upload of `handleSubmit`: nothing to do without attached images,
        otherwise the upload stage. */
    method UploadAttached(service: nat -> ServiceReply) returns (ok: bool, urls: seq<string>, shown: seq<Notice>)
      modifies this
      ensures uploadedImages == [] ==> ok && urls == [] && shown == []
      ensures shown == UploadToasts(uploadedImages, service)
      ensures uploadedImages != [] ==>
        |shown| == 2 && shown[0] == UploadingNotice(|uploadedImages|)
      ensures uploadedImages != [] && ok ==>
        shown[1] == UploadedNotice(|urls|)
      ensures uploadedImages != [] ==> ok == UploadMultipleImages(Files(uploadedImages), service).success
      ensures uploadedImages != [] && ok ==> urls == UploadMultipleImages(Files(uploadedImages), service).urls
      ensures !ok ==> (|shown| >= 1
        && shown[|shown| - 1] == Notice("error", UploadFailureNoticeAsWritten(UploadMultipleImages(Files(uploadedImages), service)), map[]))
      ensures uploadedImages == [] ==> uploadProgress == old(uploadProgress)
      ensures uploadedImages != [] ==>
        uploadProgress == if ok then "Successfully uploaded " + NatToString(|urls|) + " images" else "Uploading images..."
      ensures form == old(form) && uploadedImages == old(uploadedImages)
      ensures dragActive == old(dragActive) && isSubmitting == old(isSubmitting)
    {
      ok, urls, shown := true, [], [];
      if |uploadedImages| > 0 {
        ok, urls, shown := UploadStage(service);
      }
    }

    /** The insert stage of `handleSubmit`: an info toast, the insert, then its outcome;
        only an accepted insert resets the form and the attached images. */
    method InsertStage(data: Form, insert: Form -> InsertReply) returns (shown: seq<Notice>)
      modifies this
      ensures |shown| == 2
      ensures shown[0] == SavingNotice
      ensures uploadProgress == if insert(data).Inserted? then "" else "Saving product..."
      ensures shown[1] == SaveNotice(insert(data))
      ensures insert(data).Inserted? ==> form == InitialForm && uploadedImages == []
      ensures !insert(data).Inserted? ==> form == old(form) && uploadedImages == old(uploadedImages)
      ensures dragActive == old(dragActive) && isSubmitting == old(isSubmitting)
    {
      uploadProgress := "Saving product...";
      shown := [SavingNotice];
      var reply := insert(data);
      shown := shown + [SaveNotice(reply)];
      if reply.Inserted? {
        uploadProgress := "";
        form := InitialForm;
        uploadedImages := [];
      }
    }

    /** `handleSubmit` past its gates: the busy flag, the optional upload stage that
        aborts on failure, the payload, the insert stage, and the `finally` block. */
    method SubmitValidated(service: nat -> ServiceReply, insert: Form -> InsertReply)
      returns (notices: seq<Notice>, payload: Option<Form>)
      modifies this
      ensures !isSubmitting && uploadProgress == "" && |notices| >= 1
      // a failed upload stops before the insert
      ensures old(uploadedImages) != [] && !UploadMultipleImages(Files(old(uploadedImages)), service).success ==>
        payload.None?
        && notices[|notices| - 1] == Notice("error", UploadFailureNoticeAsWritten(UploadMultipleImages(Files(old(uploadedImages)), service)), map[])
      // otherwise the payload is the form with the uploaded urls, in batch order
      ensures old(uploadedImages) == [] ==> payload == Some(old(form)["images" := StrArray([])])
      ensures old(uploadedImages) != [] && UploadMultipleImages(Files(old(uploadedImages)), service).success ==>
        payload == Some(old(form)["images" := StrArray(UploadMultipleImages(Files(old(uploadedImages)), service).urls)])
      // the toasts: the upload's two, if any images are attached, then the insert's two
      ensures notices == SubmissionToasts(old(uploadedImages), service, if payload.Some? then Some(insert(payload.value)) else None)
      // only an accepted insert resets the form and the attached images
      ensures payload.Some? && insert(payload.value).Inserted? ==> form == InitialForm && uploadedImages == []
      ensures !(payload.Some? && insert(payload.value).Inserted?) ==>
        form == old(form) && uploadedImages == old(uploadedImages)
      ensures dragActive == old(dragActive)
    {
      isSubmitting := true;
      uploadProgress := "";
      var imageUrls: seq<string>;
      var ok, urls, shown := UploadAttached(service);
      notices := shown;
      if !ok {
        isSubmitting := false;
        // the early return still runs the `finally` block
        uploadProgress := "";
        payload := None;
        assert notices == SubmissionToasts(old(uploadedImages), service, None);
        SubmissionToastsInOrder(old(uploadedImages), service, None);
        return;
      }
      imageUrls := urls;
      var data := form["images" := StrArray(imageUrls)];
      payload := Some(data);
      var saved := InsertStage(data, insert);
      assert saved == [SavingNotice, SaveNotice(insert(data))];
      notices := notices + saved;
      SubmissionToastsInOrder(old(uploadedImages), service, Some(insert(data)));
      isSubmitting := false;
      uploadProgress := "";
    }

    /** `handleSubmit`. `parseFloat` and `parseInt` are the browser's parsers, `service(i)`
        is the upload service's reply for the i-th attached file and `insert` the outcome
        of sending a payload. Returns the toasts shown, in order, and the payload sent to
        the insert call, if any: a failed gate shows its message alone and changes nothing. */
    method Submit(parseFloat: string -> Number, parseInt: string -> Number,
                  service: nat -> ServiceReply, insert: Form -> InsertReply)
      returns (notices: seq<Notice>, payload: Option<Form>)
      modifies this
      ensures Validate(old(form), parseFloat, parseInt).Some? ==>
        && notices == [Notice("error", Validate(old(form), parseFloat, parseInt).value, map[])]
        && payload.None?
        && form == old(form) && uploadedImages == old(uploadedImages)
        && isSubmitting == old(isSubmitting) && uploadProgress == old(uploadProgress)
      ensures Validate(old(form), parseFloat, parseInt).None? ==> !isSubmitting && uploadProgress == "" && |notices| >= 1
      ensures (Validate(old(form), parseFloat, parseInt).None? && old(uploadedImages) != []
               && !UploadMultipleImages(Files(old(uploadedImages)), service).success) ==>
        payload.None?
        && notices[|notices| - 1] == Notice("error", UploadFailureNoticeAsWritten(UploadMultipleImages(Files(old(uploadedImages)), service)), map[])
      ensures Validate(old(form), parseFloat, parseInt).None? && old(uploadedImages) == [] ==>
        payload == Some(old(form)["images" := StrArray([])])
      ensures (Validate(old(form), parseFloat, parseInt).None? && old(uploadedImages) != []
               && UploadMultipleImages(Files(old(uploadedImages)), service).success) ==>
        payload == Some(old(form)["images" := StrArray(UploadMultipleImages(Files(old(uploadedImages)), service).urls)])
      ensures Validate(old(form), parseFloat, parseInt).None? ==>
        notices == SubmissionToasts(old(uploadedImages), service, if payload.Some? then Some(insert(payload.value)) else None)
      ensures payload.Some? && insert(payload.value).Inserted? ==> form == InitialForm && uploadedImages == []
      ensures !(payload.Some? && insert(payload.value).Inserted?) ==>
        form == old(form) && uploadedImages == old(uploadedImages)
      ensures dragActive == old(dragActive)
    {
      var invalid := Validate(form, parseFloat, parseInt);
      if invalid.Some? {
        notices := [Notice("error", invalid.value, map[])];
        payload := None;
      } else {
        notices, payload := SubmitValidated(service, insert);
      }
    }
  }
}
