/** The creator's Invoices tab: the submit form (its type switch, video
    picker, checks, upload, insert and the video-flag side effect), the
    reupload of a declined invoice, and the eligible-video query. */
module InvoicesTab {
  import opened Wrappers
  import opened Text
  import opened Lists
  import opened Records
  import opened Backend
  import opened Store
  import VideosTab

  const FoodPrefix := "Food & drinks expense for:"

  const NoEligibleVideo := "You need an approved video before submitting a food expense invoice. Go to the Videos tab to submit your content."
  const NoVideoSelected := "Please select which approved video this expense is for."
  const BadAmount := "Please enter a valid amount."
  const NoDate := "Please select an invoice date."
  const NoDescription := "Please enter a description."
  const NoFile := "Please upload a PDF file."
  const NotPdf := "Only PDF files are accepted."

  /** The description the form fills in for a food expense on a video. */
  function ExpenseDescription(title: string): (d: string)
    ensures StartsWith(d, FoodPrefix) && d[|FoodPrefix|..] == " " + title
  {
    FoodPrefix + " " + title
  }

  /** Videos that can back a food-expense invoice: the query's rows. */
  function EligibleVideos(videos: map<RowId, Video>, creator: string): (ids: set<RowId>)
    ensures forall id :: id in ids <==> id in videos && videos[id].creator_id == creator && ExpenseEligible(videos[id])
  {
    set id | id in videos && videos[id].creator_id == creator && ExpenseEligible(videos[id])
  }

  /** Using a video for an expense removes exactly that video from the
      eligible ones. */
  lemma MarkingEndsEligibility(videos: map<RowId, Video>, id: RowId, creator: string)
    requires id in videos
    ensures EligibleVideos(videos[id := MarkInvoiced(videos[id])], creator) == EligibleVideos(videos, creator) - {id}
  {
    var after := videos[id := MarkInvoiced(videos[id])];
    forall k ensures k in EligibleVideos(after, creator) <==> k in EligibleVideos(videos, creator) - {id} {
      if k != id && k in videos {
        assert after[k] == videos[k];
      }
    }
  }

  /** Approving a video makes it eligible exactly when it belongs to the
      creator and has not backed an expense yet; no other video changes. */
  lemma ApprovalAndEligibility(videos: map<RowId, Video>, id: RowId, creator: string, now: Timestamp)
    requires id in videos
    ensures EligibleVideos(videos[id := Records.ApproveVideo(videos[id], now)], creator) ==
      if videos[id].creator_id == creator && !videos[id].invoice_submitted
      then EligibleVideos(videos, creator) + {id}
      else EligibleVideos(videos, creator) - {id}
  {
    var after := videos[id := Records.ApproveVideo(videos[id], now)];
    var offered := videos[id].creator_id == creator && !videos[id].invoice_submitted;
    forall k ensures k in EligibleVideos(after, creator) <==>
      k in (if offered then EligibleVideos(videos, creator) + {id} else EligibleVideos(videos, creator) - {id})
    {
      if k != id && k in videos {
        assert after[k] == videos[k];
      }
    }
  }

  /** A video the Videos tab lists is one the eligible-video query returns
      exactly when the tab offers "Submit food expense invoice" for it. */
  lemma EligibleIsOffered(videos: map<RowId, Video>, listed: seq<Video>, creator: string, id: RowId)
    requires id in videos && videos[id] in listed && videos[id].creator_id == creator
    ensures id in EligibleVideos(videos, creator) <==> VideosTab.OffersExpenseInvoice(listed, videos[id])
  {
    VideosTab.OffersExpenseInvoiceIff(listed, videos[id]);
  }

  /** The checks `handleSubmit` runs before anything is sent, in order. The
      chosen video is only required to be present, not to be one of the
      eligible ones. `amount` is None when the field is empty. */
  function ValidateInvoice(kind: InvoiceType, hasEligible: bool, selected: Option<RowId>, amount: Option<real>,
                           date: Option<Day>, description: string, file: Option<File>): (r: Option<string>)
    ensures r.None? <==>
      && (kind.FoodExpense? ==> hasEligible && selected.Some?)
      && amount.Some? && amount.value > 0.0 && date.Some? && !IsBlank(description)
      && file.Some? && file.value.mime == "application/pdf"
    ensures r == Some(NoEligibleVideo) <==> kind.FoodExpense? && !hasEligible
    ensures r == Some(NoVideoSelected) <==> kind.FoodExpense? && hasEligible && selected.None?
    ensures r == Some(BadAmount) <==>
      && (kind.FoodExpense? ==> hasEligible && selected.Some?)
      && (amount.None? || amount.value <= 0.0)
    ensures r == Some(NoDate) <==>
      && (kind.FoodExpense? ==> hasEligible && selected.Some?)
      && amount.Some? && amount.value > 0.0 && date.None?
    ensures r == Some(NoDescription) <==>
      && (kind.FoodExpense? ==> hasEligible && selected.Some?)
      && amount.Some? && amount.value > 0.0 && date.Some? && IsBlank(description)
    ensures r == Some(NoFile) <==>
      && (kind.FoodExpense? ==> hasEligible && selected.Some?)
      && amount.Some? && amount.value > 0.0 && date.Some? && !IsBlank(description)
      && file.None?
    ensures r == Some(NotPdf) <==>
      && (kind.FoodExpense? ==> hasEligible && selected.Some?)
      && amount.Some? && amount.value > 0.0 && date.Some? && !IsBlank(description)
      && file.Some? && file.value.mime != "application/pdf"
  {
    if kind.FoodExpense? && !hasEligible then Some(NoEligibleVideo)
    else if kind.FoodExpense? && selected.None? then Some(NoVideoSelected)
    else if amount.None? || amount.value <= 0.0 then Some(BadAmount)
    else if date.None? then Some(NoDate)
    else if IsBlank(description) then Some(NoDescription)
    else if file.None? then Some(NoFile)
    else if file.value.mime != "application/pdf" then Some(NotPdf)
    else None
  }

  /** All videos in `vs` have different ids. */
  predicate DistinctIds(vs: seq<Video>) {
    forall i, j :: 0 <= i < |vs| && 0 <= j < |vs| && vs[i].id == vs[j].id ==> i == j
  }

  /** The invoice row a successful submit inserts: pending, with the
      trimmed description and no reference to the chosen video. */
  function SubmittedInvoice(id: RowId, f: InvoiceFields, fileUrl: string, now: Timestamp): (i: Invoice)
    requires f.amount.Some? && f.invoiceDate.Some?
    ensures i.id == id && i.creator_id == VideosTab.DemoCreatorId && i.status.Pending? && InvoiceReviewConsistent(i)
    ensures i.kind == f.kind && i.amount == f.amount.value && i.currency == f.currency
    ensures i.description == Trim(f.description) && i.invoice_date == f.invoiceDate.value && i.file_url == fileUrl
    ensures i.submitted_at == now
  {
    NewInvoice(id, VideosTab.DemoCreatorId, f.kind, f.amount.value, f.currency, Trim(f.description), f.invoiceDate.value, fileUrl, now)
  }

  /** The writes of a successful submit: the invoice row, then, for a food
      expense with a chosen video, that video's flag (when its update goes
      through; the form does not look at the outcome). */
  method RecordInvoice(db: Store, kind: InvoiceType, amount: real, currency: string, description: string,
                       date: Day, fileUrl: string, selected: Option<RowId>, flagUpdate: WriteOutcome, now: Timestamp)
    requires db.Valid()
    modifies db
    ensures db.Valid() && db.nextId == old(db.nextId) + 1 && old(db.nextId) !in old(db.invoices)
    ensures db.invoices == old(db.invoices)[old(db.nextId) :=
      NewInvoice(old(db.nextId), VideosTab.DemoCreatorId, kind, amount, currency, description, date, fileUrl, now)]
    ensures db.videos ==
      if kind.FoodExpense? && selected.Some? && flagUpdate.Written? && selected.value in old(db.videos)
      then old(db.videos)[selected.value := MarkInvoiced(old(db.videos)[selected.value])]
      else old(db.videos)
  {
    var id := db.InsertInvoice(VideosTab.DemoCreatorId, kind, amount, currency, description, date, fileUrl, now);
    if kind.FoodExpense? && selected.Some? && flagUpdate.Written? {
      db.MarkVideoInvoiced(selected.value);
    }
  }

  /** Why a submit stops before its writes, if it does: the first failing
      check, then a failed upload, then a failed insert. */
  function SubmitFailure(check: Option<string>, upload: UploadOutcome, insert: WriteOutcome): (r: Option<string>)
    ensures check.Some? ==> r == check
    ensures check.None? && upload.UploadFailed? ==> r == Some("Upload failed: " + upload.message)
    ensures check.None? && upload.Stored? && insert.WriteFailed? ==> r == Some("Failed to submit invoice: " + insert.message)
    ensures r.None? <==> check.None? && upload.Stored? && insert.Written?
  {
    if check.Some? then check
    else if upload.UploadFailed? then Some("Upload failed: " + upload.message)
    else if insert.WriteFailed? then Some("Failed to submit invoice: " + insert.message)
    else None
  }

  /** The submit form's fields. `amount` is None while the field is empty. */
  datatype InvoiceFields = InvoiceFields(
    kind: InvoiceType,
    currency: string,
    amount: Option<real>,
    invoiceDate: Option<Day>,
    description: string,
    selectedVideo: Option<RowId>,
    file: Option<File>)

  /** The fields a form starts with: a prefill from the Videos tab starts a
      food expense for that video, otherwise an empty referral payout in GBP. */
  function InitialFields(prefill: Option<VideosTab.Prefill>): (f: InvoiceFields)
    ensures f.kind == (if prefill.Some? then FoodExpense else ReferralPayout)
    ensures f.description == (if prefill.Some? then ExpenseDescription(prefill.value.videoTitle) else "")
    ensures f.selectedVideo == (if prefill.Some? then Some(prefill.value.videoId) else None)
    ensures f.currency == "GBP" && f.amount.None? && f.invoiceDate.None? && f.file.None?
  {
    if prefill.Some? then
      InvoiceFields(FoodExpense, "GBP", None, None, ExpenseDescription(prefill.value.videoTitle), Some(prefill.value.videoId), None)
    else
      InvoiceFields(ReferralPayout, "GBP", None, None, "", None, None)
  }

  /** Following the Videos tab's expense action opens the form as a food
      expense on that video, with its description filled in and nothing
      else entered. */
  lemma HandoffStartsExpense(v: Video)
    ensures var f := InitialFields(Some(VideosTab.ExpenseHandoff(v)));
      && f.kind == FoodExpense && f.selectedVideo == Some(v.id)
      && f.description == ExpenseDescription(v.title)
      && f.amount.None? && f.invoiceDate.None? && f.file.None?
  {
  }

  /** The fields after a successful submit: an empty referral payout; the
      currency is the one last chosen. */
  function ClearedFields(f: InvoiceFields): (r: InvoiceFields)
    ensures r == InitialFields(None).(currency := f.currency)
  {
    InvoiceFields(ReferralPayout, f.currency, None, None, "", None, None)
  }

  /** `SubmitInvoiceForm`: its fields, the eligible videos it was given, and
      the message and success flag it shows. */
  class InvoiceForm {
    const eligible: seq<Video>
    var fields: InvoiceFields
    var error: string
    var success: bool

    constructor (prefill: Option<VideosTab.Prefill>, eligible: seq<Video>)
      ensures this.eligible == eligible && fields == InitialFields(prefill) && error == "" && !success
    {
      this.eligible := eligible;
      fields := InitialFields(prefill);
      error := "";
      success := false;
    }

    /** The warning the form shows instead of its fields. */
    predicate FoodExpenseBlocked()
      reads this
    {
      fields.kind.FoodExpense? && |eligible| == 0
    }

    /** The outcome of the form's checks on its current fields: the first
        message is the blocked-form warning exactly when that warning is
        shown, and the fields pass exactly when every one is filled in. */
    function Check(): (r: Option<string>)
      reads this
      ensures r == Some(NoEligibleVideo) <==> FoodExpenseBlocked()
      ensures r.None? <==>
        && (fields.kind.FoodExpense? ==> |eligible| > 0 && fields.selectedVideo.Some?)
        && fields.amount.Some? && fields.amount.value > 0.0 && fields.invoiceDate.Some?
        && !IsBlank(fields.description) && fields.file.Some? && fields.file.value.mime == "application/pdf"
    {
      ValidateInvoice(fields.kind, |eligible| > 0, fields.selectedVideo, fields.amount, fields.invoiceDate, fields.description, fields.file)
    }

    /** `handleTypeChange`: switching to a referral payout forgets the video
        and a description the form had filled in; switching to a food
        expense changes nothing else. */
    method TypeChange(newKind: InvoiceType)
      modifies this`fields
      ensures newKind.FoodExpense? ==> fields == old(fields).(kind := newKind)
      ensures newKind.ReferralPayout? ==> fields == old(fields).(kind := newKind, selectedVideo := None,
        description := if StartsWith(old(fields).description, FoodPrefix) then "" else old(fields).description)
    {
      fields := fields.(kind := newKind);
      if newKind.FoodExpense? && |eligible| == 0 {
        return;
      }
      if newKind.ReferralPayout? {
        fields := fields.(selectedVideo := None);
        if StartsWith(fields.description, FoodPrefix) {
          fields := fields.(description := "");
        }
      }
    }

    /** `handleVideoSelect`: pick a video (None is the placeholder entry);
        picking an eligible video fills in the description. */
    method VideoSelect(id: Option<RowId>)
      modifies this`fields
      ensures fields.selectedVideo == id
      ensures (forall v :: v in eligible ==> Some(v.id) != id) ==> fields == old(fields).(selectedVideo := id)
      ensures forall v :: v in eligible && Some(v.id) == id && DistinctIds(eligible) ==>
        fields == old(fields).(selectedVideo := id, description := ExpenseDescription(v.title))
    {
      fields := fields.(selectedVideo := id);
      var video := Find(eligible, (v: Video) => Some(v.id) == id);
      if video.Some? {
        fields := fields.(description := ExpenseDescription(video.value.title));
      }
    }

    /** `handleSubmit`: run the checks, upload the PDF, insert the invoice,
        then flag the chosen video for a food expense (an error from that
        last update is not looked at). On success the form starts over. */
    method Submit(db: Store, upload: UploadOutcome, insert: WriteOutcome, flagUpdate: WriteOutcome, now: Timestamp)
      requires db.Valid()
      modifies this`fields, this`error, this`success, db
      ensures db.Valid()
      ensures var failure := SubmitFailure(old(Check()), upload, insert);
        && (failure.Some? ==> error == failure.value && !success)
        && (failure.None? ==> error == "" && success)
      ensures !success ==> fields == old(fields) && db.videos == old(db.videos) && db.invoices == old(db.invoices) && db.nextId == old(db.nextId)
      ensures success ==> (fields == ClearedFields(old(fields)) && old(db.nextId) !in old(db.invoices) &&
        db.invoices == old(db.invoices)[old(db.nextId) := SubmittedInvoice(old(db.nextId), old(fields), upload.publicUrl, now)])
      ensures success ==> (db.videos ==
        if old(fields).kind.FoodExpense? && old(fields).selectedVideo.Some? && flagUpdate.Written? && old(fields).selectedVideo.value in old(db.videos)
        then old(db.videos)[old(fields).selectedVideo.value := MarkInvoiced(old(db.videos)[old(fields).selectedVideo.value])]
        else old(db.videos))
    {
      var failure := SubmitFailure(Check(), upload, insert);
      if failure.Some? {
        error, success := failure.value, false;
        return;
      }
      var f := fields;
      RecordInvoice(db, f.kind, f.amount.value, f.currency, Trim(f.description), f.invoiceDate.value, upload.publicUrl,
                    f.selectedVideo, flagUpdate, now);
      error, success := "", true;
      fields := ClearedFields(f);
    }
  }

  /** The form a declined invoice shows for a revised PDF. */
  class ReuploadForm {
    const invoice: Invoice
    var file: Option<File>
    var error: string

    constructor (invoice: Invoice)
      ensures this.invoice == invoice && file.None? && error == ""
    {
      this.invoice := invoice;
      file := None;
      error := "";
    }

    /** `handleReupload`: with no file nothing happens; a file that is not a
        PDF is refused; otherwise the PDF is uploaded and the invoice's file
        and review columns are replaced. */
    method Reupload(db: Store, upload: UploadOutcome, update: WriteOutcome, now: Timestamp)
      requires db.Valid()
      modifies this`error, db
      ensures db.Valid() && db.nextId == old(db.nextId) && db.videos == old(db.videos)
      ensures file.None? ==> error == old(error) && db.invoices == old(db.invoices)
      ensures file.Some? && file.value.mime != "application/pdf" ==> error == NotPdf && db.invoices == old(db.invoices)
      ensures file.Some? && file.value.mime == "application/pdf" ==>
        && (upload.UploadFailed? ==> error == "Upload failed: " + upload.message && db.invoices == old(db.invoices))
        && (upload.Stored? && update.WriteFailed? ==> error == "Update failed: " + update.message && db.invoices == old(db.invoices))
        && (upload.Stored? && update.Written? ==> (error == "" &&
             db.invoices == if invoice.id in old(db.invoices)
               then old(db.invoices)[invoice.id := ReuploadInvoice(old(db.invoices)[invoice.id], upload.publicUrl, now)]
               else old(db.invoices)))
    {
      if file.None? {
        return;
      }
      if file.value.mime != "application/pdf" {
        error := NotPdf;
        return;
      }
      error := "";
      if upload.UploadFailed? {
        error := "Upload failed: " + upload.message;
        return;
      }
      if update.WriteFailed? {
        error := "Update failed: " + update.message;
        return;
      }
      db.ReuploadInvoice(invoice.id, upload.publicUrl, now);
    }
  }
}
