/** The creator dashboard: the payouts summary over the payment history, the
    status badge of a payment, and the page's own state (the session gate,
    the selected tab and the hand-off from the videos tab to the invoice
    form). */
module Dashboard {
  import opened Wrappers
  import opened Lists
  import Records
  import VideosTab

  /** One row of the payment history; amounts are whole pounds. */
  datatype Payment = Payment(date: string, referrals: nat, amount: nat, status: string)

  /** The payment history the payouts tab shows, newest first. */
  const PaymentHistory: seq<Payment> := [
    Payment("Feb 2024", 12, 300, "pending"),
    Payment("Jan 2024", 6, 150, "pending"),
    Payment("Dec 2023", 12, 300, "paid"),
    Payment("Nov 2023", 5, 125, "paid"),
    Payment("Oct 2023", 8, 200, "paid"),
    Payment("Sep 2023", 4, 100, "paid")
  ]

  /** The fee per referral. */
  const ReferralFee: nat := 25

  /** `rows.reduce((s, p) => s + p.amount, 0)`. */
  function Sum(rows: seq<Payment>): nat {
    if rows == [] then 0 else rows[0].amount + Sum(rows[1..])
  }

  predicate IsPaid(p: Payment) {
    p.status == "paid"
  }

  predicate IsPending(p: Payment) {
    p.status == "pending"
  }

  predicate IsOtherStatus(p: Payment) {
    !IsPaid(p) && !IsPending(p)
  }

  /** `totalPaid`: the amounts of the rows whose status is "paid". */
  function TotalPaid(rows: seq<Payment>): nat {
    Sum(Filter(rows, IsPaid))
  }

  /** `totalPending`: the amounts of the rows whose status is "pending". */
  function TotalPending(rows: seq<Payment>): nat {
    Sum(Filter(rows, IsPending))
  }

  /** The "Total Earnings" card: `totalPaid + totalPending`. */
  function TotalEarnings(rows: seq<Payment>): (n: nat)
    ensures n <= Sum(rows)
    ensures n == Sum(rows) <==> Sum(Filter(rows, IsOtherStatus)) == 0
  {
    TotalsPartition(rows);
    TotalPaid(rows) + TotalPending(rows)
  }

  /** Every amount lands in exactly one of the paid total, the pending total
      and the rows of any other status, which neither total counts. */
  lemma {:induction false} TotalsPartition(rows: seq<Payment>)
    ensures Sum(rows) == TotalPaid(rows) + TotalPending(rows) + Sum(Filter(rows, IsOtherStatus))
  {
    if rows != [] {
      TotalsPartition(rows[1..]);
      var x := rows[0];
      assert forall s: seq<Payment> :: ([x] + s)[1..] == s;
    }
  }

  /** The totals of a history one row longer at the front. */
  lemma TotalPaidCons(x: Payment, s: seq<Payment>)
    ensures TotalPaid([x] + s) == (if IsPaid(x) then x.amount else 0) + TotalPaid(s)
  {
    assert ([x] + s)[1..] == s;
    assert ([x] + Filter(s, IsPaid))[1..] == Filter(s, IsPaid);
  }

  lemma TotalPendingCons(x: Payment, s: seq<Payment>)
    ensures TotalPending([x] + s) == (if IsPending(x) then x.amount else 0) + TotalPending(s)
  {
    assert ([x] + s)[1..] == s;
    assert ([x] + Filter(s, IsPending))[1..] == Filter(s, IsPending);
  }

  /** The history's paid total is 725. */
  lemma PaymentHistoryPaid()
    ensures TotalPaid(PaymentHistory) == 725
  {
    var h := PaymentHistory;
    var s5 := [h[5]];
    var s4 := [h[4]] + s5;
    var s3 := [h[3]] + s4;
    var s2 := [h[2]] + s3;
    var s1 := [h[1]] + s2;
    assert h == [h[0]] + s1;
    assert s5 == [h[5]] + [];
    TotalPaidCons(h[5], []);
    TotalPaidCons(h[4], s5);
    TotalPaidCons(h[3], s4);
    TotalPaidCons(h[2], s3);
    TotalPaidCons(h[1], s2);
    TotalPaidCons(h[0], s1);
  }

  /** The history's pending total is 450. */
  lemma PaymentHistoryPending()
    ensures TotalPending(PaymentHistory) == 450
  {
    var h := PaymentHistory;
    var s5 := [h[5]];
    var s4 := [h[4]] + s5;
    var s3 := [h[3]] + s4;
    var s2 := [h[2]] + s3;
    var s1 := [h[1]] + s2;
    assert h == [h[0]] + s1;
    assert s5 == [h[5]] + [];
    TotalPendingCons(h[5], []);
    TotalPendingCons(h[4], s5);
    TotalPendingCons(h[3], s4);
    TotalPendingCons(h[2], s3);
    TotalPendingCons(h[1], s2);
    TotalPendingCons(h[0], s1);
  }

  /** The history's totals: 725 paid, 450 pending, 1175 earned. */
  lemma PaymentHistoryTotals()
    ensures TotalPaid(PaymentHistory) == 725
    ensures TotalPending(PaymentHistory) == 450
    ensures TotalEarnings(PaymentHistory) == 1175
  {
    PaymentHistoryPaid();
    PaymentHistoryPending();
  }

  /** Every row of the history pays the referral fee per referral. */
  lemma PaymentHistoryAmounts()
    ensures forall p :: p in PaymentHistory ==> p.amount == ReferralFee * p.referrals
  {
  }

  /** The two badges a payment row can show. */
  datatype Badge = PaidBadge | PendingBadge

  /** The badge's text. */
  function BadgeText(b: Badge): string {
    match b
    case PaidBadge => "Paid"
    case PendingBadge => "Pending"
  }

  /** `StatusBadge`: the paid badge for the status "paid", the pending badge
      for any other text, including statuses the history never uses. */
  function StatusBadge(status: string): (badge: Badge)
    ensures badge.PaidBadge? <==> IsPaid(Payment("", 0, 0, status))
    ensures BadgeText(badge) == "Pending" <==> status != "paid"
  {
    if status == "paid" then PaidBadge else PendingBadge
  }

  /** A row of a status other than "paid" or "pending" shows the badge
      "Pending" yet counts in neither total. */
  lemma BadgeOfOtherStatus(p: Payment)
    requires IsOtherStatus(p)
    ensures StatusBadge(p.status) == PendingBadge
    ensures TotalPaid([p]) == 0 && TotalPending([p]) == 0
  {
  }

  datatype Tab = Overview | Videos | Invoices | Payouts

  /** How `getSession` ends: with a session, without one, or with an error. */
  datatype SessionCheck = HasSession | NoSession | SessionError

  const LoginPath := "/login"

  /** The dashboard page's state. `redirect` is the last path handed to
      `router.replace`. */
  class DashboardPage {
    var authed: bool
    var checking: bool
    var tab: Tab
    var invoicePrefill: Option<VideosTab.Prefill>
    var redirect: Option<string>

    /** The session check ends once and then the user is signed in: the page
        is never authed while still checking. */
    ghost predicate Valid()
      reads this
    {
      authed <==> !checking
    }

    constructor()
      ensures Valid()
      ensures !authed && checking && tab == Overview
      ensures invoicePrefill.None? && redirect.None?
    {
      authed := false;
      checking := true;
      tab := Overview;
      invoicePrefill := None;
      redirect := None;
    }

    /** The tab's content renders only after the check, for a signed-in user;
        otherwise the page shows a spinner. */
    predicate ShowsContent()
      reads this
    {
      !checking && authed
    }

    /** The content the page renders: the selected tab, or nothing. */
    function Content(): (r: Option<Tab>)
      reads this
      ensures r.Some? <==> ShowsContent()
      ensures r.Some? ==> r.value == tab
    {
      if ShowsContent() then Some(tab) else None
    }

    /** The outcome of `getSession`: a session signs the user in; no session
        or an error sends the browser to the login page and leaves the page
        checking. */
    method SessionChecked(result: SessionCheck)
      requires Valid()
      modifies this
      ensures Valid()
      ensures result == HasSession ==> authed && !checking && redirect == old(redirect)
      ensures result != HasSession ==>
        (authed == old(authed) && checking == old(checking) && redirect == Some(LoginPath))
      ensures tab == old(tab) && invoicePrefill == old(invoicePrefill)
    {
      if result == HasSession {
        authed := true;
        checking := false;
      } else {
        redirect := Some(LoginPath);
      }
    }

    /** `onAuthStateChange`: losing the session sends the browser to the
        login page; nothing else changes. */
    method AuthStateChanged(hasSession: bool)
      modifies this
      ensures redirect == if hasSession then old(redirect) else Some(LoginPath)
      ensures authed == old(authed) && checking == old(checking)
      ensures tab == old(tab) && invoicePrefill == old(invoicePrefill)
    {
      if !hasSession {
        redirect := Some(LoginPath);
      }
    }

    /** Signing out goes to the login page (the session itself ends in the
        backend). */
    method SignOut()
      modifies this
      ensures redirect == Some(LoginPath)
      ensures authed == old(authed) && checking == old(checking)
      ensures tab == old(tab) && invoicePrefill == old(invoicePrefill)
    {
      redirect := Some(LoginPath);
    }

    method SelectTab(t: Tab)
      modifies this
      ensures tab == t
      ensures authed == old(authed) && checking == old(checking)
      ensures invoicePrefill == old(invoicePrefill) && redirect == old(redirect)
    {
      tab := t;
    }

    /** The videos tab's "create expense invoice" hand-off: the prefill is
        kept for the invoice form and the invoices tab opens. */
    method NavigateToInvoices(p: VideosTab.Prefill)
      modifies this
      ensures invoicePrefill == Some(p) && tab == Invoices
      ensures authed == old(authed) && checking == old(checking) && redirect == old(redirect)
    {
      invoicePrefill := Some(p);
      tab := Invoices;
    }

    /** The invoice form has taken the prefill over: it is dropped. */
    method PrefillConsumed()
      modifies this
      ensures invoicePrefill.None?
      ensures tab == old(tab) && authed == old(authed) && checking == old(checking) && redirect == old(redirect)
    {
      invoicePrefill := None;
    }
  }

  /** A fresh page whose session check finds no session shows no content and
      has sent the browser to the login page. */
  method NoSessionScenario() returns (shown: Option<Tab>, redirect: Option<string>)
    ensures shown.None? && redirect == Some(LoginPath)
  {
    var page := new DashboardPage();
    page.SessionChecked(NoSession);
    shown := page.Content();
    redirect := page.redirect;
  }

  /** Handing a video over from the videos tab, on a signed-in page, shows
      the invoices tab holding that video's prefill. */
  method HandoffScenario(v: Records.Video) returns (shown: Option<Tab>, prefill: Option<VideosTab.Prefill>)
    ensures shown == Some(Invoices)
    ensures prefill == Some(VideosTab.ExpenseHandoff(v))
  {
    var page := new DashboardPage();
    page.SessionChecked(HasSession);
    page.NavigateToInvoices(VideosTab.ExpenseHandoff(v));
    shown := page.Content();
    prefill := page.invoicePrefill;
  }
}
