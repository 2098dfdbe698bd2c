/** The hosted backend's two review tables, held in memory: every write the
    portal makes is one method here. An update addressed to an id that is not
    in the table matches no row and changes nothing, as `.update(…).eq("id", …)`
    does. Each method keeps every row's review columns consistent with its
    status (`Valid`). */
module Store {
  import opened Wrappers
  import opened Records

  class Store {
    var videos: map<RowId, Video>
    var invoices: map<RowId, Invoice>
    /** The next generated key; every stored id is below it. */
    var nextId: nat

    ghost predicate Valid()
      reads this
    {
      && (forall id :: id in videos ==> id < nextId && videos[id].id == id && VideoReviewConsistent(videos[id]))
      && (forall id :: id in invoices ==> id < nextId && invoices[id].id == id && InvoiceReviewConsistent(invoices[id]))
    }

    /** An empty backend. */
    constructor ()
      ensures Valid() && videos == map[] && invoices == map[]
    {
      videos, invoices, nextId := map[], map[], 0;
    }

    /** `from("videos").insert(…)`: a new pending row under a fresh id. */
    method InsertVideo(creator: string, title: string, url: string, fileUrl: Option<string>,
                       description: Option<string>, now: Timestamp) returns (id: RowId)
      requires Valid()
      modifies this
      ensures Valid()
      ensures id == old(nextId) && id !in old(videos) && id !in old(invoices) && nextId == old(nextId) + 1
      ensures videos == old(videos)[id := NewVideo(id, creator, title, url, fileUrl, description, now)]
      ensures invoices == old(invoices)
    {
      id := nextId;
      videos := videos[id := NewVideo(id, creator, title, url, fileUrl, description, now)];
      nextId := nextId + 1;
    }

    /** `from("invoices").insert(…)`: a new pending row under a fresh id. */
    method InsertInvoice(creator: string, kind: InvoiceType, amount: real, currency: string,
                         description: string, date: Day, fileUrl: string, now: Timestamp) returns (id: RowId)
      requires Valid()
      modifies this
      ensures Valid()
      ensures id == old(nextId) && id !in old(videos) && id !in old(invoices) && nextId == old(nextId) + 1
      ensures invoices == old(invoices)[id := NewInvoice(id, creator, kind, amount, currency, description, date, fileUrl, now)]
      ensures videos == old(videos)
    {
      id := nextId;
      invoices := invoices[id := NewInvoice(id, creator, kind, amount, currency, description, date, fileUrl, now)];
      nextId := nextId + 1;
    }

    /** Approve a video (any status: the update has no status filter). */
    method ApproveVideo(id: RowId, now: Timestamp)
      requires Valid()
      modifies this
      ensures Valid() && nextId == old(nextId) && invoices == old(invoices)
      ensures videos == if id in old(videos) then old(videos)[id := Records.ApproveVideo(old(videos)[id], now)] else old(videos)
    {
      if id in videos {
        videos := videos[id := Records.ApproveVideo(videos[id], now)];
      }
    }

    /** Reject a video with the given comment. */
    method RejectVideo(id: RowId, comment: string, now: Timestamp)
      requires Valid()
      modifies this
      ensures Valid() && nextId == old(nextId) && invoices == old(invoices)
      ensures videos == if id in old(videos) then old(videos)[id := Records.RejectVideo(old(videos)[id], comment, now)] else old(videos)
    {
      if id in videos {
        videos := videos[id := Records.RejectVideo(videos[id], comment, now)];
      }
    }

    /** Put a video back into review with a new link or file. */
    method ResubmitVideo(id: RowId, url: string, fileUrl: Option<string>, now: Timestamp)
      requires Valid()
      modifies this
      ensures Valid() && nextId == old(nextId) && invoices == old(invoices)
      ensures videos == if id in old(videos) then old(videos)[id := Records.ResubmitVideo(old(videos)[id], url, fileUrl, now)] else old(videos)
    {
      if id in videos {
        videos := videos[id := Records.ResubmitVideo(videos[id], url, fileUrl, now)];
      }
    }

    /** `update({ invoice_submitted: true }).eq("id", id)`. */
    method MarkVideoInvoiced(id: RowId)
      requires Valid()
      modifies this
      ensures Valid() && nextId == old(nextId) && invoices == old(invoices)
      ensures videos == if id in old(videos) then old(videos)[id := MarkInvoiced(old(videos)[id])] else old(videos)
      ensures forall k :: k in old(videos) && old(videos)[k].invoice_submitted ==> videos[k].invoice_submitted
    {
      if id in videos {
        videos := videos[id := MarkInvoiced(videos[id])];
      }
    }

    /** Approve an invoice (any status: the update has no status filter). */
    method ApproveInvoice(id: RowId, now: Timestamp)
      requires Valid()
      modifies this
      ensures Valid() && nextId == old(nextId) && videos == old(videos)
      ensures invoices == if id in old(invoices) then old(invoices)[id := Records.ApproveInvoice(old(invoices)[id], now)] else old(invoices)
    {
      if id in invoices {
        invoices := invoices[id := Records.ApproveInvoice(invoices[id], now)];
      }
    }

    /** Decline an invoice with the given comment. */
    method DeclineInvoice(id: RowId, comment: string, now: Timestamp)
      requires Valid()
      modifies this
      ensures Valid() && nextId == old(nextId) && videos == old(videos)
      ensures invoices == if id in old(invoices) then old(invoices)[id := Records.DeclineInvoice(old(invoices)[id], comment, now)] else old(invoices)
    {
      if id in invoices {
        invoices := invoices[id := Records.DeclineInvoice(invoices[id], comment, now)];
      }
    }

    /** Replace an invoice's file and put it back into review. */
    method ReuploadInvoice(id: RowId, fileUrl: string, now: Timestamp)
      requires Valid()
      modifies this
      ensures Valid() && nextId == old(nextId) && videos == old(videos)
      ensures invoices == if id in old(invoices) then old(invoices)[id := Records.ReuploadInvoice(old(invoices)[id], fileUrl, now)] else old(invoices)
    {
      if id in invoices {
        invoices := invoices[id := Records.ReuploadInvoice(invoices[id], fileUrl, now)];
      }
    }
  }
}
