/** The creator's Videos tab: submitting a video (a link or an uploaded
    file), resubmitting a rejected one, and the gates the tab derives from the
    creator's list of videos. */
module VideosTab {
  import opened Wrappers
  import opened Text
  import opened Lists
  import opened Records
  import opened Backend
  import opened Store

  /** The tab acts for one fixed creator. */
  const DemoCreatorId: string := "a1b2c3d4-e5f6-7890-abcd-ef1234567890"

  /** The upload ceiling, 500 MiB. */
  const MaxVideoBytes: nat := 500 * 1024 * 1024

  const TitleMissing := "Please enter a title."
  const LinkMissing := "Please paste a video link or switch to file upload."
  const FileMissing := "Please select a video file to upload."
  const WrongFileType := "Only MP4 and MOV files are accepted."
  const FileTooLarge := "File size must be under 500MB."

  /** A file is taken when its MIME type starts with `video/` or its name
      ends in `.mp4` or `.mov`, in any letter case. */
  predicate AcceptedVideoFile(f: File) {
    StartsWith(f.mime, "video/") || EndsWith(ToLower(f.name), ".mp4") || EndsWith(ToLower(f.name), ".mov")
  }

  /** The submit form's fields. */
  datatype SubmitForm = SubmitForm(title: string, videoUrl: string, useUpload: bool, file: Option<File>, description: string)

  /** The checks `handleSubmit` runs before anything is sent, in order: the
      message of the first failing one, or None. */
  function ValidateSubmit(f: SubmitForm): (r: Option<string>)
    ensures r == Some(TitleMissing) <==> IsBlank(f.title)
    ensures r == Some(LinkMissing) <==> !IsBlank(f.title) && !f.useUpload && IsBlank(f.videoUrl)
    ensures r == Some(FileMissing) <==> !IsBlank(f.title) && f.useUpload && f.file.None?
    ensures r == Some(WrongFileType) <==> !IsBlank(f.title) && f.useUpload && f.file.Some? && !AcceptedVideoFile(f.file.value)
    ensures r == Some(FileTooLarge) <==>
      !IsBlank(f.title) && f.useUpload && f.file.Some? && AcceptedVideoFile(f.file.value) && f.file.value.size > MaxVideoBytes
    ensures r.None? <==> (!IsBlank(f.title) &&
      if f.useUpload then f.file.Some? && AcceptedVideoFile(f.file.value) && f.file.value.size <= MaxVideoBytes
      else !IsBlank(f.videoUrl))
  {
    if IsBlank(f.title) then Some(TitleMissing)
    else if !f.useUpload && IsBlank(f.videoUrl) then Some(LinkMissing)
    else if f.useUpload && f.file.None? then Some(FileMissing)
    else if f.useUpload && f.file.Some? && !AcceptedVideoFile(f.file.value) then Some(WrongFileType)
    else if f.useUpload && f.file.Some? && f.file.value.size > MaxVideoBytes then Some(FileTooLarge)
    else None
  }

  /** The row a successful submit inserts. An uploaded file's public URL is
      both the link and the file reference; a pasted link is trimmed and has
      no file reference. A blank description is stored as null. */
  function SubmittedVideo(id: RowId, f: SubmitForm, upload: UploadOutcome, now: Timestamp): (v: Video)
    requires f.useUpload ==> upload.Stored?
    ensures v.id == id && v.creator_id == DemoCreatorId && v.submitted_at == now
    ensures v.status.Pending? && VideoReviewConsistent(v) && !v.invoice_submitted
    ensures v.title == Trim(f.title)
    ensures v.description == if IsBlank(f.description) then None else Some(Trim(f.description))
    ensures f.useUpload ==> v.video_url == upload.publicUrl && v.video_file_url == Some(upload.publicUrl)
    ensures !f.useUpload ==> v.video_url == Trim(f.videoUrl) && v.video_file_url.None?
  {
    var description := if Trim(f.description) == [] then None else Some(Trim(f.description));
    if f.useUpload then
      NewVideo(id, DemoCreatorId, Trim(f.title), upload.publicUrl, Some(upload.publicUrl), description, now)
    else
      NewVideo(id, DemoCreatorId, Trim(f.title), Trim(f.videoUrl), None, description, now)
  }

  /** `SubmitVideoForm.handleSubmit`: validate, upload the file in upload
      mode, insert the row. Returns the message the form shows, None on
      success. Any failure leaves the tables as they were. */
  method Submit(db: Store, f: SubmitForm, upload: UploadOutcome, insert: WriteOutcome, now: Timestamp)
    returns (error: Option<string>)
    requires db.Valid()
    modifies db
    ensures db.Valid() && db.invoices == old(db.invoices)
    ensures ValidateSubmit(f).Some? ==> error == ValidateSubmit(f)
    ensures ValidateSubmit(f).None? && f.useUpload && upload.UploadFailed? ==>
      error == Some("Upload failed: " + upload.message)
    ensures ValidateSubmit(f).None? && (f.useUpload ==> upload.Stored?) && insert.WriteFailed? ==>
      error == Some("Failed to submit: " + insert.message)
    ensures error.None? <==> ValidateSubmit(f).None? && (f.useUpload ==> upload.Stored?) && insert.Written?
    ensures error.Some? ==> db.videos == old(db.videos) && db.nextId == old(db.nextId)
    ensures error.None? ==> (old(db.nextId) !in old(db.videos) &&
      db.videos == old(db.videos)[old(db.nextId) := SubmittedVideo(old(db.nextId), f, upload, now)])
  {
    error := ValidateSubmit(f);
    if error.Some? {
      return;
    }
    if f.useUpload && upload.UploadFailed? {
      error := Some("Upload failed: " + upload.message);
      return;
    }
    if insert.WriteFailed? {
      error := Some("Failed to submit: " + insert.message);
      return;
    }
    var row := SubmittedVideo(db.nextId, f, upload, now);
    var id := db.InsertVideo(row.creator_id, row.title, row.video_url, row.video_file_url, row.description, now);
  }

  /** The resubmit form's fields; the link starts as the video's current one. */
  datatype ResubmitForm = ResubmitForm(videoUrl: string, useUpload: bool, file: Option<File>)

  function InitialResubmitForm(v: Video): (f: ResubmitForm)
    ensures f.videoUrl == v.video_url && !f.useUpload && f.file.None?
  {
    ResubmitForm(v.video_url, false, None)
  }

  /** The checks `handleResubmit` runs: only that a link or a file is given.
      Neither the file's type nor its size is looked at. */
  function ValidateResubmit(f: ResubmitForm): (r: Option<string>)
    ensures r.None? <==> if f.useUpload then f.file.Some? else !IsBlank(f.videoUrl)
    ensures r.Some? ==> r.value == (if f.useUpload then "Please select a file." else "Please paste a video link.")
  {
    if !f.useUpload && IsBlank(f.videoUrl) then Some("Please paste a video link.")
    else if f.useUpload && f.file.None? then Some("Please select a file.")
    else None
  }

  /** The link and file reference a resubmit writes: the uploaded file's URL
      for both, or the trimmed link with the previous file reference kept. */
  function ResubmitSource(v: Video, f: ResubmitForm, upload: UploadOutcome): (r: (string, Option<string>))
    requires f.useUpload ==> upload.Stored?
    ensures f.useUpload ==> r == (upload.publicUrl, Some(upload.publicUrl))
    ensures !f.useUpload ==> r == (Trim(f.videoUrl), v.video_file_url)
  {
    if f.useUpload then (upload.publicUrl, Some(upload.publicUrl)) else (Trim(f.videoUrl), v.video_file_url)
  }

  /** `ResubmitForm.handleResubmit` for the video `v` the tab shows: validate,
      upload in upload mode, then update the row with id `v.id`. */
  method Resubmit(db: Store, v: Video, f: ResubmitForm, upload: UploadOutcome, update: WriteOutcome, now: Timestamp)
    returns (error: Option<string>)
    requires db.Valid()
    modifies db
    ensures db.Valid() && db.invoices == old(db.invoices) && db.nextId == old(db.nextId)
    ensures ValidateResubmit(f).Some? ==> error == ValidateResubmit(f)
    ensures ValidateResubmit(f).None? && f.useUpload && upload.UploadFailed? ==>
      error == Some("Upload failed: " + upload.message)
    ensures ValidateResubmit(f).None? && (f.useUpload ==> upload.Stored?) && update.WriteFailed? ==>
      error == Some("Update failed: " + update.message)
    ensures error.None? <==> ValidateResubmit(f).None? && (f.useUpload ==> upload.Stored?) && update.Written?
    ensures error.Some? ==> db.videos == old(db.videos)
    ensures error.None? ==> (db.videos ==
      if v.id in old(db.videos) then
        old(db.videos)[v.id := ResubmitVideo(old(db.videos)[v.id], ResubmitSource(v, f, upload).0, ResubmitSource(v, f, upload).1, now)]
      else old(db.videos))
  {
    error := ValidateResubmit(f);
    if error.Some? {
      return;
    }
    if f.useUpload && upload.UploadFailed? {
      error := Some("Upload failed: " + upload.message);
      return;
    }
    if update.WriteFailed? {
      error := Some("Update failed: " + update.message);
      return;
    }
    var (url, fileUrl) := ResubmitSource(v, f, upload);
    db.ResubmitVideo(v.id, url, fileUrl, now);
  }

  /** A file that submit turns away for its type, whatever its size, is
      taken by resubmit. */
  lemma ResubmitSkipsFileChecks(title: string, url: string, file: File, description: string)
    requires !IsBlank(title) && !AcceptedVideoFile(file)
    ensures ValidateSubmit(SubmitForm(title, url, true, Some(file), description)) == Some(WrongFileType)
    ensures ValidateResubmit(ResubmitForm(url, true, Some(file))).None?
  {
  }

  /** A file of exactly 500 MiB with an accepted type passes every check. */
  lemma ExactCeilingAccepted(title: string, file: File, description: string)
    requires !IsBlank(title) && AcceptedVideoFile(file) && file.size == 500 * 1024 * 1024
    ensures ValidateSubmit(SubmitForm(title, "", true, Some(file), description)).None?
  {
  }

  /** The creator's pending video: the first pending one in the fetched list. */
  function PendingVideo(vs: seq<Video>): (r: Option<Video>)
    ensures r.None? <==> forall i :: 0 <= i < |vs| ==> !vs[i].status.Pending?
    ensures r.Some? ==> exists i :: (0 <= i < |vs| && vs[i] == r.value && vs[i].status.Pending?
      && forall j :: 0 <= j < i ==> !vs[j].status.Pending?)
  {
    Find(vs, (v: Video) => v.status.Pending?)
  }

  /** The creator's rejected video: the first rejected one in the fetched list. */
  function RejectedVideo(vs: seq<Video>): (r: Option<Video>)
    ensures r.None? <==> forall i :: 0 <= i < |vs| ==> !vs[i].status.Rejected?
    ensures r.Some? ==> exists i :: (0 <= i < |vs| && vs[i] == r.value && vs[i].status.Rejected?
      && forall j :: 0 <= j < i ==> !vs[j].status.Rejected?)
  {
    Find(vs, (v: Video) => v.status.Rejected?)
  }

  predicate IsApproved(v: Video) {
    v.status.Approved?
  }

  /** The approved videos: every approved video of the list, as often as it
      occurs there and in the list's order, and nothing else. */
  function ApprovedVideos(vs: seq<Video>): (r: seq<Video>)
    ensures forall v :: v in r <==> v in vs && v.status.Approved?
    ensures SubsequenceOf(r, vs)
    ensures |r| == CountWhere(vs, IsApproved)
  {
    FilterMembers(vs, IsApproved);
    FilterIsSubsequence(vs, IsApproved);
    Filter(vs, IsApproved)
  }

  /** The new-submission form is offered iff no video is pending or rejected. */
  function CanSubmitNew(vs: seq<Video>): (b: bool)
    ensures b <==> forall i :: 0 <= i < |vs| ==> vs[i].status.Approved?
  {
    PendingVideo(vs).None? && RejectedVideo(vs).None?
  }

  /** The "Submit Expense Invoice" action shows beside an approved video whose
      invoice flag is still false. */
  predicate OffersExpenseInvoice(vs: seq<Video>, v: Video) {
    v in ApprovedVideos(vs) && !v.invoice_submitted
  }

  /** That action is offered exactly for the creator's eligible videos. */
  lemma {:induction false} OffersExpenseInvoiceIff(vs: seq<Video>, v: Video)
    ensures OffersExpenseInvoice(vs, v) <==> v in vs && ExpenseEligible(v)
  {
    FilterMultiset(vs, IsApproved, v);
  }

  /** What the tab hands to the Invoices tab for an expense invoice. */
  datatype Prefill = Prefill(videoTitle: string, videoId: RowId)

  function ExpenseHandoff(v: Video): (p: Prefill)
    ensures p.videoId == v.id && p.videoTitle == v.title
  {
    Prefill(v.title, v.id)
  }
}
