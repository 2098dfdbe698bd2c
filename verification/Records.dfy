/** The rows the portal keeps in its `invoices`, `videos` and `creators`
    tables, the review transitions an admin or a creator applies to one row,
    and `currencySymbol`. Ids are allocated by the store (the tables use
    generated keys); timestamps and invoice dates are ordered instants. */
module Records {
  import opened Wrappers

  type RowId = nat
  /** An ISO-8601 instant (`submitted_at`, `reviewed_at`); the clock is an input. */
  type Timestamp = nat
  /** A calendar day (`invoice_date`, compared as `YYYY-MM-DD`). */
  type Day = nat

  datatype InvoiceType = ReferralPayout | FoodExpense
  datatype InvoiceStatus = Pending | Approved | Declined
  datatype VideoStatus = Pending | Approved | Rejected

  /** The column value of an invoice type. */
  function InvoiceTypeName(t: InvoiceType): (n: string)
    ensures n == "referral_payout" || n == "food_expense"
    ensures t.FoodExpense? <==> n == "food_expense"
  {
    match t
    case ReferralPayout => "referral_payout"
    case FoodExpense => "food_expense"
  }

  /** Reads an invoice type column: exactly the two names are types. */
  function ParseInvoiceType(s: string): (r: Option<InvoiceType>)
    ensures forall t :: r == Some(t) <==> InvoiceTypeName(t) == s
  {
    if s == "referral_payout" then Some(ReferralPayout)
    else if s == "food_expense" then Some(FoodExpense)
    else None
  }

  function InvoiceStatusName(s: InvoiceStatus): (n: string)
    ensures n == "pending" || n == "approved" || n == "declined"
  {
    match s
    case Pending => "pending"
    case Approved => "approved"
    case Declined => "declined"
  }

  /** Reads an invoice status column: exactly the three names are statuses. */
  function ParseInvoiceStatus(s: string): (r: Option<InvoiceStatus>)
    ensures forall t :: r == Some(t) <==> InvoiceStatusName(t) == s
  {
    if s == "pending" then Some(InvoiceStatus.Pending)
    else if s == "approved" then Some(InvoiceStatus.Approved)
    else if s == "declined" then Some(Declined)
    else None
  }

  function VideoStatusName(s: VideoStatus): (n: string)
    ensures n == "pending" || n == "approved" || n == "rejected"
  {
    match s
    case Pending => "pending"
    case Approved => "approved"
    case Rejected => "rejected"
  }

  /** Reads a video status column: exactly the three names are statuses. */
  function ParseVideoStatus(s: string): (r: Option<VideoStatus>)
    ensures forall t :: r == Some(t) <==> VideoStatusName(t) == s
  {
    if s == "pending" then Some(VideoStatus.Pending)
    else if s == "approved" then Some(VideoStatus.Approved)
    else if s == "rejected" then Some(Rejected)
    else None
  }

  /** An invoice row. `kind` is the `type` column; `currency` is any text. */
  datatype Invoice = Invoice(
    id: RowId,
    creator_id: string,
    kind: InvoiceType,
    amount: real,
    currency: string,
    description: string,
    invoice_date: Day,
    file_url: string,
    status: InvoiceStatus,
    admin_comment: Option<string>,
    submitted_at: Timestamp,
    reviewed_at: Option<Timestamp>)

  /** A video row. */
  datatype Video = Video(
    id: RowId,
    creator_id: string,
    title: string,
    video_url: string,
    video_file_url: Option<string>,
    description: Option<string>,
    status: VideoStatus,
    admin_comment: Option<string>,
    submitted_at: Timestamp,
    reviewed_at: Option<Timestamp>,
    invoice_submitted: bool)

  /** A creator row; `id` is the id of the creator's auth user. */
  datatype Creator = Creator(
    id: string,
    email: string,
    name: string,
    voucher_code: string,
    created_at: Timestamp)

  /** `currencySymbol`: the euro sign for "EUR" and the pound sign for every
      other code, known or not. */
  function CurrencySymbol(c: string): (r: string)
    ensures r == "€" <==> c == "EUR"
    ensures r == "€" || r == "£"
  {
    if c == "EUR" then "€" else "£"
  }

  /** A video can back a food-expense invoice: approved and not used yet. */
  predicate ExpenseEligible(v: Video) {
    v.status.Approved? && !v.invoice_submitted
  }

  /** The review columns agree with the status: a row has been reviewed iff
      it is no longer pending, and it carries an admin comment iff it was
      sent back. Every write below keeps this. */
  predicate VideoReviewConsistent(v: Video) {
    && (v.status.Pending? <==> v.reviewed_at.None?)
    && (v.status.Rejected? <==> v.admin_comment.Some?)
  }

  predicate InvoiceReviewConsistent(i: Invoice) {
    && (i.status.Pending? <==> i.reviewed_at.None?)
    && (i.status.Declined? <==> i.admin_comment.Some?)
  }

  /** Nothing the creator submitted changes: the columns a review leaves alone. */
  predicate SameVideoSubmission(a: Video, b: Video) {
    && a.id == b.id && a.creator_id == b.creator_id && a.title == b.title
    && a.video_url == b.video_url && a.video_file_url == b.video_file_url
    && a.description == b.description && a.submitted_at == b.submitted_at
    && a.invoice_submitted == b.invoice_submitted
  }

  predicate SameInvoiceSubmission(a: Invoice, b: Invoice) {
    && a.id == b.id && a.creator_id == b.creator_id && a.kind == b.kind
    && a.amount == b.amount && a.currency == b.currency && a.description == b.description
    && a.invoice_date == b.invoice_date && a.file_url == b.file_url
    && a.submitted_at == b.submitted_at
  }

  /** A new video row as the table stores it: the columns the insert sends,
      plus the table's defaults (no review yet, `invoice_submitted` false,
      `submitted_at` the insert time). */
  function NewVideo(id: RowId, creator: string, title: string, url: string, fileUrl: Option<string>,
                    description: Option<string>, now: Timestamp): (v: Video)
    ensures v.status.Pending? && VideoReviewConsistent(v) && !v.invoice_submitted
    ensures v.id == id && v.creator_id == creator && v.title == title && v.video_url == url
    ensures v.video_file_url == fileUrl && v.description == description && v.submitted_at == now
  {
    Video(id, creator, title, url, fileUrl, description, VideoStatus.Pending, None, now, None, false)
  }

  /** The approve update on a video row. */
  function ApproveVideo(v: Video, now: Timestamp): (r: Video)
    ensures r.status.Approved? && r.reviewed_at == Some(now) && r.admin_comment.None?
    ensures SameVideoSubmission(r, v) && VideoReviewConsistent(r)
    ensures ExpenseEligible(r) <==> !v.invoice_submitted
  {
    v.(status := VideoStatus.Approved, reviewed_at := Some(now), admin_comment := None)
  }

  /** The reject update on a video row, storing the admin's comment. */
  function RejectVideo(v: Video, comment: string, now: Timestamp): (r: Video)
    ensures r.status.Rejected? && r.reviewed_at == Some(now) && r.admin_comment == Some(comment)
    ensures SameVideoSubmission(r, v) && VideoReviewConsistent(r) && !ExpenseEligible(r)
  {
    v.(status := Rejected, reviewed_at := Some(now), admin_comment := Some(comment))
  }

  /** The resubmit update: a new link or file, back to pending with the review
      cleared. Title, description and the invoice flag stay. */
  function ResubmitVideo(v: Video, url: string, fileUrl: Option<string>, now: Timestamp): (r: Video)
    ensures r.status.Pending? && r.admin_comment.None? && r.reviewed_at.None? && VideoReviewConsistent(r)
    ensures r.video_url == url && r.video_file_url == fileUrl && r.submitted_at == now
    ensures r.id == v.id && r.creator_id == v.creator_id && r.title == v.title
    ensures r.description == v.description && r.invoice_submitted == v.invoice_submitted
  {
    v.(video_url := url, video_file_url := fileUrl, status := VideoStatus.Pending,
       admin_comment := None, reviewed_at := None, submitted_at := now)
  }

  /** The side effect of a food-expense invoice: the video is used up. */
  function MarkInvoiced(v: Video): (r: Video)
    ensures r.invoice_submitted && !ExpenseEligible(r)
    ensures r.status == v.status && r.reviewed_at == v.reviewed_at && r.admin_comment == v.admin_comment
    ensures VideoReviewConsistent(r) <==> VideoReviewConsistent(v)
    ensures r.(invoice_submitted := v.invoice_submitted) == v
  {
    v.(invoice_submitted := true)
  }

  /** A new invoice row: the columns the insert sends plus the table's defaults. */
  function NewInvoice(id: RowId, creator: string, kind: InvoiceType, amount: real, currency: string,
                      description: string, date: Day, fileUrl: string, now: Timestamp): (i: Invoice)
    ensures i.status.Pending? && InvoiceReviewConsistent(i)
    ensures i.id == id && i.creator_id == creator && i.kind == kind && i.amount == amount
    ensures i.currency == currency && i.description == description && i.invoice_date == date
    ensures i.file_url == fileUrl && i.submitted_at == now
  {
    Invoice(id, creator, kind, amount, currency, description, date, fileUrl, InvoiceStatus.Pending, None, now, None)
  }

  /** The approve update on an invoice row. */
  function ApproveInvoice(i: Invoice, now: Timestamp): (r: Invoice)
    ensures r.status.Approved? && r.reviewed_at == Some(now) && r.admin_comment.None?
    ensures SameInvoiceSubmission(r, i) && InvoiceReviewConsistent(r)
  {
    i.(status := InvoiceStatus.Approved, reviewed_at := Some(now), admin_comment := None)
  }

  /** The decline update on an invoice row, storing the admin's comment. */
  function DeclineInvoice(i: Invoice, comment: string, now: Timestamp): (r: Invoice)
    ensures r.status.Declined? && r.reviewed_at == Some(now) && r.admin_comment == Some(comment)
    ensures SameInvoiceSubmission(r, i) && InvoiceReviewConsistent(r)
  {
    i.(status := Declined, reviewed_at := Some(now), admin_comment := Some(comment))
  }

  /** The reupload update: only the file and the review columns change. */
  function ReuploadInvoice(i: Invoice, fileUrl: string, now: Timestamp): (r: Invoice)
    ensures r.status.Pending? && r.admin_comment.None? && r.reviewed_at.None? && InvoiceReviewConsistent(r)
    ensures r.file_url == fileUrl && r.submitted_at == now
    ensures r.id == i.id && r.creator_id == i.creator_id && r.kind == i.kind && r.amount == i.amount
    ensures r.currency == i.currency && r.description == i.description && r.invoice_date == i.invoice_date
  {
    i.(file_url := fileUrl, status := InvoiceStatus.Pending, admin_comment := None,
       reviewed_at := None, submitted_at := now)
  }

  /** Rejecting and then resubmitting a video leaves it pending with no trace
      of the review, and with the creator's title and description. */
  lemma RejectThenResubmit(v: Video, comment: string, t1: Timestamp, url: string, fileUrl: Option<string>, t2: Timestamp)
    ensures var r := ResubmitVideo(RejectVideo(v, comment, t1), url, fileUrl, t2);
      && r.status.Pending? && r.admin_comment.None? && r.reviewed_at.None?
      && r.title == v.title && r.description == v.description
      && r == ResubmitVideo(v, url, fileUrl, t2)
  {
  }

  /** Declining and then reuploading an invoice is the same as reuploading it. */
  lemma DeclineThenReupload(i: Invoice, comment: string, t1: Timestamp, fileUrl: string, t2: Timestamp)
    ensures ReuploadInvoice(DeclineInvoice(i, comment, t1), fileUrl, t2) == ReuploadInvoice(i, fileUrl, t2)
  {
  }
}
