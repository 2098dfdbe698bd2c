/** The admin page's two review sections. Each fetches its table through a
    query (equality filters, an inclusive date range for invoices, newest
    submission first), narrows the rows by a case-insensitive search on the
    creator, counts them by status, and approves or sends back one row. */
module AdminPage {
  import opened Wrappers
  import opened Text
  import opened Lists
  import opened Records
  import opened Backend
  import opened Store

  /** The joined `creators(name, email)` columns; either can be missing. */
  datatype CreatorRef = CreatorRef(name: Option<string>, email: Option<string>)

  datatype InvoiceRow = InvoiceRow(invoice: Invoice, creator: Option<CreatorRef>)
  datatype VideoRow = VideoRow(video: Video, creator: Option<CreatorRef>)

  /** `ORDER BY submitted_at DESC`. */
  function InvoiceSubmitted(r: InvoiceRow): int { r.invoice.submitted_at }
  function VideoSubmitted(r: VideoRow): int { r.video.submitted_at }

  /** The invoice section's filters; None stands for "all" or an empty date. */
  datatype InvoiceFilters = InvoiceFilters(
    status: Option<InvoiceStatus>,
    kind: Option<InvoiceType>,
    name: string,
    dateFrom: Option<Day>,
    dateTo: Option<Day>)

  /** What the invoice query keeps: equal status and type when chosen, and an
      invoice date inside the chosen bounds, both ends included. */
  predicate InvoiceQueryMatch(f: InvoiceFilters, r: InvoiceRow) {
    && (f.status.Some? ==> r.invoice.status == f.status.value)
    && (f.kind.Some? ==> r.invoice.kind == f.kind.value)
    && (f.dateFrom.Some? ==> r.invoice.invoice_date >= f.dateFrom.value)
    && (f.dateTo.Some? ==> r.invoice.invoice_date <= f.dateTo.value)
  }

  /** The store's answer to the invoice query over the joined table. */
  function QueryInvoices(table: seq<InvoiceRow>, f: InvoiceFilters): (r: seq<InvoiceRow>)
    ensures SortedDesc(r, InvoiceSubmitted)
    ensures multiset(r) == multiset(Filter(table, (x: InvoiceRow) => InvoiceQueryMatch(f, x)))
  {
    SortDesc(Filter(table, (x: InvoiceRow) => InvoiceQueryMatch(f, x)), InvoiceSubmitted)
  }

  /** `creators?.name?.toLowerCase().includes(search) ||
      creators?.email?.toLowerCase().includes(search)`: a row without creator
      data, or without the field, does not match on it. */
  predicate CreatorMatches(search: string, c: Option<CreatorRef>) {
    && c.Some?
    && ((c.value.name.Some? && Contains(ToLower(c.value.name.value), search))
        || (c.value.email.Some? && Contains(ToLower(c.value.email.value), search)))
  }

  predicate InvoiceSearchMatch(search: string, r: InvoiceRow) {
    CreatorMatches(search, r.creator)
  }

  /** The client-side search: only when the trimmed text is not empty, and
      then with the lower-cased text as typed (not trimmed). */
  function SearchInvoices(rows: seq<InvoiceRow>, name: string): (r: seq<InvoiceRow>)
    ensures IsBlank(name) ==> r == rows
    ensures SubsequenceOf(r, rows)
    ensures forall x :: x in r ==> x in rows && (IsBlank(name) || InvoiceSearchMatch(ToLower(name), x))
  {
    SubsequenceOfSelf(rows);
    if IsBlank(name) then rows
    else
      FilterIsSubsequence(rows, (x: InvoiceRow) => InvoiceSearchMatch(ToLower(name), x));
      Filter(rows, (x: InvoiceRow) => InvoiceSearchMatch(ToLower(name), x))
  }

  /** `fetchInvoices`: the rows the section lists. */
  function FetchInvoices(table: seq<InvoiceRow>, f: InvoiceFilters): seq<InvoiceRow> {
    SearchInvoices(QueryInvoices(table, f), f.name)
  }

  /** Everything a fetch keeps passes all filters, each matching row of the
      table is kept as often as it occurs, and the rows come newest first. */
  lemma {:induction false} FetchInvoicesSpec(table: seq<InvoiceRow>, f: InvoiceFilters, x: InvoiceRow)
    ensures var rows := FetchInvoices(table, f);
      && SortedDesc(rows, InvoiceSubmitted)
      && SubsequenceOf(rows, QueryInvoices(table, f))
      && multiset(rows)[x] ==
         if InvoiceQueryMatch(f, x) && (IsBlank(f.name) || InvoiceSearchMatch(ToLower(f.name), x))
         then multiset(table)[x] else 0
  {
    var queried := QueryInvoices(table, f);
    var rows := FetchInvoices(table, f);
    SubsequenceSorted(rows, queried, InvoiceSubmitted);
    FilterMultiset(table, (y: InvoiceRow) => InvoiceQueryMatch(f, y), x);
    if !IsBlank(f.name) {
      FilterMultiset(queried, (y: InvoiceRow) => InvoiceSearchMatch(ToLower(f.name), y), x);
    }
  }

  /** While a search is active, rows with no creator name or email drop out. */
  lemma SearchDropsRowsWithoutCreator(table: seq<InvoiceRow>, f: InvoiceFilters, x: InvoiceRow)
    requires !IsBlank(f.name)
    requires x.creator.None? || (x.creator.value.name.None? && x.creator.value.email.None?)
    ensures x !in FetchInvoices(table, f)
  {
  }

  /** The invoice section's header counts. */
  datatype InvoiceTally = InvoiceTally(total: nat, pending: nat, approved: nat, declined: nat)

  /** Each header count is the number of listed invoices with that status,
      and the three add up to the total. */
  function InvoiceCounts(rows: seq<InvoiceRow>): (c: InvoiceTally)
    ensures c.total == |rows|
    ensures c.pending == |Filter(rows, (r: InvoiceRow) => r.invoice.status.Pending?)|
    ensures c.approved == |Filter(rows, (r: InvoiceRow) => r.invoice.status.Approved?)|
    ensures c.declined == |Filter(rows, (r: InvoiceRow) => r.invoice.status.Declined?)|
    ensures c.pending + c.approved + c.declined == c.total
  {
    var p := (r: InvoiceRow) => r.invoice.status.Pending?;
    var a := (r: InvoiceRow) => r.invoice.status.Approved?;
    var d := (r: InvoiceRow) => r.invoice.status.Declined?;
    CountPartition(rows, p, a, d);
    InvoiceTally(|rows|, CountWhere(rows, p), CountWhere(rows, a), CountWhere(rows, d))
  }

  /** Approve and decline buttons show only beside a pending invoice; the
      writes themselves do not look at the status. */
  predicate ShowsInvoiceActions(i: Invoice) {
    i.status.Pending?
  }

  /** The invoice section's review state. */
  class InvoicesPanel {
    var expandedId: Option<RowId>
    var decliningId: Option<RowId>
    var declineComment: string

    constructor ()
      ensures expandedId.None? && decliningId.None? && declineComment == ""
    {
      expandedId, decliningId, declineComment := None, None, "";
    }

    /** `handleApprove`: on a successful write the row is approved and the
        detail view closes; a failed write changes nothing. */
    method Approve(db: Store, id: RowId, write: WriteOutcome, now: Timestamp)
      requires db.Valid()
      modifies this`expandedId, db
      ensures db.Valid() && db.videos == old(db.videos) && db.nextId == old(db.nextId)
      ensures write.WriteFailed? ==> db.invoices == old(db.invoices) && expandedId == old(expandedId)
      ensures write.Written? ==> (expandedId.None? && db.invoices ==
        if id in old(db.invoices) then old(db.invoices)[id := ApproveInvoice(old(db.invoices)[id], now)] else old(db.invoices))
    {
      if write.Written? {
        db.ApproveInvoice(id, now);
        expandedId := None;
      }
    }

    /** `handleDecline`: a blank comment does nothing at all; otherwise a
        successful write declines the row with the trimmed comment and closes
        the comment box. */
    method Decline(db: Store, id: RowId, write: WriteOutcome, now: Timestamp)
      requires db.Valid()
      modifies this, db
      ensures db.Valid() && db.videos == old(db.videos) && db.nextId == old(db.nextId)
      ensures IsBlank(old(declineComment)) || write.WriteFailed? ==>
        db.invoices == old(db.invoices) && expandedId == old(expandedId)
        && decliningId == old(decliningId) && declineComment == old(declineComment)
      ensures !IsBlank(old(declineComment)) && write.Written? ==> (
        && expandedId.None? && decliningId.None? && declineComment == ""
        && db.invoices == if id in old(db.invoices)
             then old(db.invoices)[id := DeclineInvoice(old(db.invoices)[id], Trim(old(declineComment)), now)]
             else old(db.invoices))
    {
      if IsBlank(declineComment) {
        return;
      }
      if write.Written? {
        db.DeclineInvoice(id, Trim(declineComment), now);
        decliningId, declineComment, expandedId := None, "", None;
      }
    }
  }

  /** The comment a decline or reject stores is not empty and has no white
      space at either end. */
  lemma StoredCommentIsTrimmed(comment: string)
    requires !IsBlank(comment)
    ensures var c := Trim(comment); c != [] && !IsSpace(c[0]) && !IsSpace(c[|c| - 1]) && Trim(c) == c
  {
    TrimIdempotent(comment);
  }

  /** The video section's filters: a status ("all" is None) and the search. */
  datatype VideoFilters = VideoFilters(status: Option<VideoStatus>, name: string)

  function QueryVideos(table: seq<VideoRow>, f: VideoFilters): (r: seq<VideoRow>)
    ensures SortedDesc(r, VideoSubmitted)
    ensures multiset(r) == multiset(Filter(table, (x: VideoRow) => f.status.Some? ==> x.video.status == f.status.value))
  {
    SortDesc(Filter(table, (x: VideoRow) => f.status.Some? ==> x.video.status == f.status.value), VideoSubmitted)
  }

  /** Videos also match on their title. */
  predicate VideoSearchMatch(search: string, r: VideoRow) {
    CreatorMatches(search, r.creator) || Contains(ToLower(r.video.title), search)
  }

  function SearchVideos(rows: seq<VideoRow>, name: string): (r: seq<VideoRow>)
    ensures IsBlank(name) ==> r == rows
    ensures SubsequenceOf(r, rows)
    ensures forall x :: x in r ==> x in rows && (IsBlank(name) || VideoSearchMatch(ToLower(name), x))
  {
    SubsequenceOfSelf(rows);
    if IsBlank(name) then rows
    else
      FilterIsSubsequence(rows, (x: VideoRow) => VideoSearchMatch(ToLower(name), x));
      Filter(rows, (x: VideoRow) => VideoSearchMatch(ToLower(name), x))
  }

  /** `fetchVideos`: the rows the section lists. */
  function FetchVideos(table: seq<VideoRow>, f: VideoFilters): seq<VideoRow> {
    SearchVideos(QueryVideos(table, f), f.name)
  }

  lemma {:induction false} FetchVideosSpec(table: seq<VideoRow>, f: VideoFilters, x: VideoRow)
    ensures var rows := FetchVideos(table, f);
      && SortedDesc(rows, VideoSubmitted)
      && SubsequenceOf(rows, QueryVideos(table, f))
      && multiset(rows)[x] ==
         if (f.status.Some? ==> x.video.status == f.status.value) && (IsBlank(f.name) || VideoSearchMatch(ToLower(f.name), x))
         then multiset(table)[x] else 0
  {
    var queried := QueryVideos(table, f);
    var rows := FetchVideos(table, f);
    SubsequenceSorted(rows, queried, VideoSubmitted);
    FilterMultiset(table, (y: VideoRow) => f.status.Some? ==> y.video.status == f.status.value, x);
    if !IsBlank(f.name) {
      FilterMultiset(queried, (y: VideoRow) => VideoSearchMatch(ToLower(f.name), y), x);
    }
  }

  /** The video section's header counts. */
  datatype VideoTally = VideoTally(total: nat, pending: nat, approved: nat, rejected: nat)

  /** Each header count is the number of listed videos with that status, and
      the three add up to the total. */
  function VideoCounts(rows: seq<VideoRow>): (c: VideoTally)
    ensures c.total == |rows|
    ensures c.pending == |Filter(rows, (r: VideoRow) => r.video.status.Pending?)|
    ensures c.approved == |Filter(rows, (r: VideoRow) => r.video.status.Approved?)|
    ensures c.rejected == |Filter(rows, (r: VideoRow) => r.video.status.Rejected?)|
    ensures c.pending + c.approved + c.rejected == c.total
  {
    var p := (r: VideoRow) => r.video.status.Pending?;
    var a := (r: VideoRow) => r.video.status.Approved?;
    var j := (r: VideoRow) => r.video.status.Rejected?;
    CountPartition(rows, p, a, j);
    VideoTally(|rows|, CountWhere(rows, p), CountWhere(rows, a), CountWhere(rows, j))
  }

  predicate ShowsVideoActions(v: Video) {
    v.status.Pending?
  }

  /** The video section's review state. */
  class VideosPanel {
    var expandedId: Option<RowId>
    var rejectingId: Option<RowId>
    var rejectComment: string

    constructor ()
      ensures expandedId.None? && rejectingId.None? && rejectComment == ""
    {
      expandedId, rejectingId, rejectComment := None, None, "";
    }

    /** `handleApprove` for videos. */
    method Approve(db: Store, id: RowId, write: WriteOutcome, now: Timestamp)
      requires db.Valid()
      modifies this`expandedId, db
      ensures db.Valid() && db.invoices == old(db.invoices) && db.nextId == old(db.nextId)
      ensures write.WriteFailed? ==> db.videos == old(db.videos) && expandedId == old(expandedId)
      ensures write.Written? ==> (expandedId.None? && db.videos ==
        if id in old(db.videos) then old(db.videos)[id := ApproveVideo(old(db.videos)[id], now)] else old(db.videos))
    {
      if write.Written? {
        db.ApproveVideo(id, now);
        expandedId := None;
      }
    }

    /** `handleReject`: a blank comment does nothing at all. */
    method Reject(db: Store, id: RowId, write: WriteOutcome, now: Timestamp)
      requires db.Valid()
      modifies this, db
      ensures db.Valid() && db.invoices == old(db.invoices) && db.nextId == old(db.nextId)
      ensures IsBlank(old(rejectComment)) || write.WriteFailed? ==>
        db.videos == old(db.videos) && expandedId == old(expandedId)
        && rejectingId == old(rejectingId) && rejectComment == old(rejectComment)
      ensures !IsBlank(old(rejectComment)) && write.Written? ==> (
        && expandedId.None? && rejectingId.None? && rejectComment == ""
        && db.videos == if id in old(db.videos)
             then old(db.videos)[id := RejectVideo(old(db.videos)[id], Trim(old(rejectComment)), now)]
             else old(db.videos))
    {
      if IsBlank(rejectComment) {
        return;
      }
      if write.Written? {
        db.RejectVideo(id, Trim(rejectComment), now);
        rejectingId, rejectComment, expandedId := None, "", None;
      }
    }
  }
}
