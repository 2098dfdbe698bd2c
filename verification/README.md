# Creator portal: a verified model of its review workflow

The portal lets food creators do three things:

- submit a video, as a link or an uploaded file, and resubmit it once it has been rejected;
- send invoices, either referral payouts or food-and-drink expenses backed by an approved video, and upload a revised PDF once one is declined;
- follow their payouts.

An admin page lists the videos and invoices with filters and a search. From there the admin approves them, or rejects or declines them with a comment.

The model also covers:

- the creator sign-up form;
- the onboarding webhook that creates creator accounts;
- the placeholder chips on the nudges page;
- the landing page's earnings calculator.

The hosted backend becomes the class `Store.Store`. It holds two maps, `id → Video` and `id → Invoice`, and a key counter. Every write the portal makes is one method on it, and each of those methods keeps every row's review columns consistent with the row's status.

Some inputs are not computed by the model:

- The clock ("now") is a parameter.
- Storage uploads (`UploadOutcome`), table writes (`WriteOutcome`) and auth calls are parameters too, so each failure path is an explicit input.

The modules follow the program's files:

- **Text** (the JavaScript string operations the handlers use) and **Lists** (`filter`, `find`, counting, `ORDER BY … DESC`) are shared helpers.
- **Records** covers `src/lib/supabase.ts`.
- **Store** is the backend.
- **VideosTab** and **InvoicesTab** cover the creator's two tabs.
- **AdminPage** covers the two review sections.
- **Signup**, **Webhook**, **Dashboard**, **Nudges** and **Landing** cover the pages of the same names.
- **Widgets** models the open/closed toggle shared by the FAQ items and the automation cards.

Where the code does something one might not expect, the model follows the code:

- Resubmitting a video does no MIME or size check (`VideosTab.ResubmitSkipsFileChecks`).
- The approve, decline and reject writes have no status guard; only the page hides their buttons for rows that are not pending. `Store.Store.ApproveVideo` and the other review methods apply to a row of any status.
- A food-expense invoice row stores no video id. The link to its video exists only as the video's `invoice_submitted` flag.
- The invoice form checks only that *some* eligible video exists and that *a* video is selected. It does not check that the selected id is one of the eligible videos.
- The webhook stores the voucher code as received, while the sign-up form trims it and upper-cases it (`Webhook.VoucherStoredAsReceived`).
- A payment whose status is neither "paid" nor "pending" shows the "Pending" badge but counts in neither total (`Dashboard.BadgeOfOtherStatus`).

## Model

| member | source | states |
|---|---|---|
| Records.InvoiceTypeName | src/lib/supabase.ts:8 | the column value of an invoice type is one of the two names, and it is "food_expense" exactly for a food expense |
| Records.ParseInvoiceType | src/lib/supabase.ts:8 | a column value reads as a type iff it is that type's name, so exactly "referral_payout" and "food_expense" are types |
| Records.InvoiceStatusName | src/lib/supabase.ts:9 | an invoice status is written as "pending", "approved" or "declined" |
| Records.ParseInvoiceStatus | src/lib/supabase.ts:9 | exactly those three names read as invoice statuses, each as its own status |
| Records.VideoStatusName | src/lib/supabase.ts:37 | a video status is written as "pending", "approved" or "rejected" |
| Records.ParseVideoStatus | src/lib/supabase.ts:37 | exactly those three names read as video statuses, each as its own status |
| Records.CurrencySymbol | src/lib/supabase.ts:35 | the result is "€" iff the code is "EUR"; every other code, "GBP" or unknown, gives "£" |
| Records.NewVideo | src/components/VideosTab.tsx:101-108 | a new video row is pending, unreviewed, not yet invoiced, and holds exactly the inserted columns |
| Records.ApproveVideo | src/app/admin/page.tsx:555-564 | approving sets the status approved, `reviewed_at` to now and clears the comment; the submitted columns are unchanged; the video becomes eligible for an expense iff it was not invoiced yet |
| Records.RejectVideo | src/app/admin/page.tsx:573-583 | rejecting sets the status rejected, stores the comment and the review time, changes no submitted column, and leaves the video ineligible |
| Records.ResubmitVideo | src/components/VideosTab.tsx:274-284 | a resubmit is pending with comment and review time cleared, a new link, file and `submitted_at`, and the same id, creator, title, description and flag |
| Records.MarkInvoiced | src/components/InvoicesTab.tsx:154-160 | the flag is set and the video is no longer eligible; every other column is unchanged, so the review columns and their consistency are kept |
| Records.NewInvoice | src/components/InvoicesTab.tsx:137-146 | a new invoice row is pending, unreviewed, and holds exactly the inserted columns (no video id) |
| Records.ApproveInvoice | src/app/admin/page.tsx:206-215 | approving sets the status approved, `reviewed_at` to now and clears the comment; the submitted columns are unchanged |
| Records.DeclineInvoice | src/app/admin/page.tsx:224-234 | declining sets the status declined and stores the comment and review time; the submitted columns are unchanged |
| Records.ReuploadInvoice | src/components/InvoicesTab.tsx:387-396 | a reupload changes only the file, the status (to pending), the comment and review time (cleared) and `submitted_at`; type, amount, currency, description and date are untouched |
| Records.RejectThenResubmit | src/components/VideosTab.tsx:274-284 | rejecting and then resubmitting leaves a pending, unreviewed video with no comment |
| Records.DeclineThenReupload | src/components/InvoicesTab.tsx:387-396 | declining and then reuploading gives the same row as reuploading alone |
| Store.Store.constructor | src/lib/supabase.ts:11-51 | the backend starts with empty tables |
| Store.Store.InsertVideo | src/components/VideosTab.tsx:101-108 | the insert adds one new video under a fresh key and changes nothing else |
| Store.Store.InsertInvoice | src/components/InvoicesTab.tsx:137-146 | the insert adds one new invoice under a fresh key and changes nothing else |
| Store.Store.ApproveVideo | src/app/admin/page.tsx:559-564 | the row with that id, whatever its status, is replaced by its approved form; an unknown id changes nothing; the invoices are untouched |
| Store.Store.RejectVideo | src/app/admin/page.tsx:577-583 | the row with that id is replaced by its rejected form with the comment; nothing else changes |
| Store.Store.ResubmitVideo | src/components/VideosTab.tsx:274-284 | the row with that id is replaced by its resubmitted form; nothing else changes |
| Store.Store.MarkVideoInvoiced | src/components/InvoicesTab.tsx:156-159 | only the row with that id gets its flag set; a flag once set stays set |
| Store.Store.ApproveInvoice | src/app/admin/page.tsx:208-215 | the invoice with that id, whatever its status, is approved; nothing else changes |
| Store.Store.DeclineInvoice | src/app/admin/page.tsx:227-234 | the invoice with that id is declined with the comment; nothing else changes |
| Store.Store.ReuploadInvoice | src/components/InvoicesTab.tsx:387-396 | the invoice with that id is replaced by its reuploaded form; nothing else changes |
| VideosTab.ValidateSubmit | src/components/VideosTab.tsx:49-73 | one iff per message, in order: a blank title; a missing link (link chosen) or missing file (upload chosen) after a title; a wrong type, then a size over 500 MiB, for an uploaded file; the checks pass iff none of these fails |
| VideosTab.SubmittedVideo | src/components/VideosTab.tsx:78-108 | the inserted row is pending, with the trimmed title and the description trimmed or null when blank; upload mode stores the public URL as both link and file; link mode stores the trimmed link and no file |
| VideosTab.Submit | src/components/VideosTab.tsx:45-116 | the first failing check, a failed upload or a failed insert is reported with its message and writes nothing; otherwise exactly the submitted row is inserted under a fresh key |
| VideosTab.InitialResubmitForm | src/components/VideosTab.tsx:230-232 | the resubmit form starts in link mode with the video's current link and no file |
| VideosTab.ValidateResubmit | src/components/VideosTab.tsx:239-246 | the checks pass iff the chosen source is present (a non-blank link or a file), with the matching message otherwise |
| VideosTab.ResubmitSource | src/components/VideosTab.tsx:251-272 | upload mode writes the public URL as both link and file; link mode writes the trimmed link and keeps the previous file |
| VideosTab.Resubmit | src/components/VideosTab.tsx:236-290 | a failed check, upload or update reports its message and writes nothing; otherwise exactly that video is resubmitted with the chosen source |
| VideosTab.ResubmitSkipsFileChecks | src/components/VideosTab.tsx:239-246 | a file that submit turns away for its type passes the resubmit checks |
| VideosTab.ExactCeilingAccepted | src/components/VideosTab.tsx:70 | a file of exactly 500·1024·1024 bytes with an accepted type passes |
| VideosTab.PendingVideo | src/components/VideosTab.tsx:395 | there is a pending video iff one of the list is pending, and the one found is the first pending video of the list |
| VideosTab.RejectedVideo | src/components/VideosTab.tsx:396 | there is a rejected video iff one of the list is rejected, and the one found is the first rejected video of the list |
| VideosTab.ApprovedVideos | src/components/VideosTab.tsx:397 | a video is in the approved list iff it is an approved video of the list; the list keeps the original order and has one entry per approved video |
| VideosTab.CanSubmitNew | src/components/VideosTab.tsx:398 | the new-submission form is offered iff no video is pending or rejected |
| VideosTab.OffersExpenseInvoiceIff | src/components/VideosTab.tsx:580-621 | the expense action is offered exactly for the listed videos that are approved and not yet invoiced |
| InvoicesTab.HandoffStartsExpense | src/components/VideosTab.tsx:400-407 | following the expense action opens the invoice form as a food expense on that video, with `Food & drinks expense for: <title>` filled in and no amount, date or file |
| InvoicesTab.ExpenseDescription | src/components/InvoicesTab.tsx:79 | the description is the prefix "Food & drinks expense for:", a space and the title |
| InvoicesTab.EligibleIsOffered | src/components/InvoicesTab.tsx:464-469 | for a video the Videos tab lists, the eligible-video query returns it exactly when the tab offers the expense action for it |
| InvoicesTab.ApprovalAndEligibility | src/app/admin/page.tsx:555-564 | approving a video adds exactly it to its creator's eligible videos when it has not backed an expense yet, and otherwise leaves it out; no other video changes |
| InvoicesTab.MarkingEndsEligibility | src/components/InvoicesTab.tsx:154-160 | flagging an eligible video removes exactly that video from the eligible set |
| InvoicesTab.ValidateInvoice | src/components/InvoicesTab.tsx:88-117 | one iff per message, in order: no eligible video (food expense), no video selected, a missing or non-positive amount, no date, a blank description, no file, a non-PDF file, each exactly when every earlier check passes; the checks pass iff all seven hold |
| InvoicesTab.SubmittedInvoice | src/components/InvoicesTab.tsx:137-146 | the inserted row is the creator's pending invoice with the form's type, amount, currency, date, the trimmed description and the uploaded file's URL |
| InvoicesTab.RecordInvoice | src/components/InvoicesTab.tsx:137-160 | the invoice is inserted under a fresh key; for a food expense with a selected video only that video is flagged, whatever the flag update's outcome |
| InvoicesTab.SubmitFailure | src/components/InvoicesTab.tsx:88-152 | the first failure wins: a check, then the upload, then the insert, each with its message; none iff all succeed |
| InvoicesTab.InitialFields | src/components/InvoicesTab.tsx:40-53 | a prefill starts a food expense on the prefilled video with its description; otherwise an empty referral payout; the currency starts as GBP |
| InvoicesTab.ClearedFields | src/components/InvoicesTab.tsx:162-168 | after success the form is an empty referral payout and keeps its currency |
| InvoicesTab.InvoiceForm.constructor | src/components/InvoicesTab.tsx:40-57 | the form starts from the initial fields, no error and no success |
| InvoicesTab.InvoiceForm.Check | src/components/InvoicesTab.tsx:88-117 | the first message is the blocked-form warning exactly when the form shows it instead of its fields; the fields pass iff every one is filled in as required |
| InvoicesTab.InvoiceForm.TypeChange | src/components/InvoicesTab.tsx:62-73 | switching to a food expense only sets the type; switching to a referral payout also clears the selected video, and clears the description only when it starts with the expense prefix |
| InvoicesTab.InvoiceForm.VideoSelect | src/components/InvoicesTab.tsx:75-81 | the selection is set; picking a listed video also writes its expense description; an unknown id leaves the description |
| InvoicesTab.InvoiceForm.Submit | src/components/InvoicesTab.tsx:83-171 | a failing check, upload or insert shows its message and changes neither the fields nor the store; success records the invoice (and the video flag), clears the form and shows success |
| InvoicesTab.ReuploadForm.constructor | src/components/InvoicesTab.tsx:357-359 | the reupload form starts with no file and no error |
| InvoicesTab.ReuploadForm.Reupload | src/components/InvoicesTab.tsx:361-403 | no file does nothing; a non-PDF shows the PDF message; a failed upload or update shows its message; otherwise exactly that invoice is reuploaded |
| AdminPage.QueryInvoices | src/app/admin/page.tsx:175-183 | the query returns the rows matching the chosen status, type and inclusive date range, each as often as in the table, newest submission first |
| AdminPage.SearchInvoices | src/app/admin/page.tsx:188-197 | a blank search keeps every row; otherwise the result is an order-preserving subsequence whose rows match the lower-cased search text on creator name or email |
| AdminPage.FetchInvoicesSpec | src/app/admin/page.tsx:172-197 | the listed rows are sorted newest first and a subsequence of the query; each row occurs as often as in the table when it passes every filter, and otherwise not at all |
| AdminPage.SearchDropsRowsWithoutCreator | src/app/admin/page.tsx:189-195 | while a search is active, a row with no creator name or email is not listed |
| AdminPage.InvoiceCounts | src/app/admin/page.tsx:245-248 | the pending, approved and declined counts are the numbers of listed invoices with those statuses, and they add up to the total |
| AdminPage.InvoicesPanel.constructor | src/app/admin/page.tsx:160-169 | nothing is expanded and no comment is open |
| AdminPage.InvoicesPanel.Approve | src/app/admin/page.tsx:206-222 | a successful write approves the row and closes the detail view; a failed write changes nothing |
| AdminPage.InvoicesPanel.Decline | src/app/admin/page.tsx:224-243 | a blank comment or a failed write changes nothing; otherwise the row is declined with the trimmed comment and the comment box closes |
| AdminPage.StoredCommentIsTrimmed | src/app/admin/page.tsx:225-232 | a stored decline or reject comment is not empty and has no white space at either end |
| AdminPage.QueryVideos | src/app/admin/page.tsx:526-531 | the rows of the chosen status, each as often as in the table, newest submission first |
| AdminPage.SearchVideos | src/app/admin/page.tsx:536-546 | a blank search keeps every row; otherwise an order-preserving subsequence whose rows match on creator name, email or title |
| AdminPage.FetchVideosSpec | src/app/admin/page.tsx:523-546 | the listed videos are sorted newest first and a subsequence of the query, each as often as in the table iff it passes both filters |
| AdminPage.VideoCounts | src/app/admin/page.tsx:594-597 | the pending, approved and rejected counts are the numbers of listed videos with those statuses, and they add up to the total |
| AdminPage.VideosPanel.constructor | src/app/admin/page.tsx:514-520 | nothing is expanded and no comment is open |
| AdminPage.VideosPanel.Approve | src/app/admin/page.tsx:555-571 | a successful write approves the video and closes the detail view; a failed write changes nothing |
| AdminPage.VideosPanel.Reject | src/app/admin/page.tsx:573-592 | a blank comment or a failed write changes nothing; otherwise the video is rejected with the trimmed comment |
| Text.Trim | src/app/admin/page.tsx:225 | the input is the result with only white space before and after it; the result has no white space at either end, and it is empty iff the input is all white space |
| Text.TrimIdempotent | src/app/admin/page.tsx:232 | trimming a trimmed text changes nothing |
| Text.ToLower | src/app/admin/page.tsx:190 | each character is lower-cased in place, the length kept |
| Text.ToLowerIdempotent | src/app/admin/page.tsx:190-194 | lower-casing twice is lower-casing once |
| Text.ToUpper | src/app/signup/page.tsx:81 | each character is upper-cased in place, the length kept |
| Text.Utf16Length | src/app/signup/page.tsx:51 | the length is the number of characters plus one for each character outside the Basic Multilingual Plane |
| Lists.Find | src/components/VideosTab.tsx:395-396 | nothing is found iff no element qualifies; otherwise the first qualifying element |
| Lists.CountWhere | src/app/admin/page.tsx:246 | the count is the length of the filtered list |
| Lists.FilterIsSubsequence | src/app/admin/page.tsx:191-195 | filtering keeps an order-preserving subsequence |
| Lists.FilterMultiset | src/app/admin/page.tsx:191-195 | an element survives filtering as often as it occurs iff it qualifies |
| Lists.FilterMembers | src/app/admin/page.tsx:191-195 | an element is in the filtered list iff it is in the list and qualifies |
| Lists.SortDesc | src/app/admin/page.tsx:178 | the result is a permutation of the rows, sorted by descending key |
| Lists.SubsequenceSorted | src/app/admin/page.tsx:188-197 | filtering after the ordered query keeps the order |
| Signup.ValidateSignup | src/app/signup/page.tsx:41-55 | the checks pass iff the name and voucher code are not blank and the password has at least 6 units; the name is checked first, then the voucher, then the password |
| Signup.NewCreatorRow | src/app/signup/page.tsx:77-82 | the row has the auth user's id, the email as typed, the trimmed name and the voucher code trimmed and upper-cased |
| Signup.Submit | src/app/signup/page.tsx:36-97 | a failing check makes no call; an auth error shows its message; no user or empty identities shows the account-exists message with no insert; otherwise the row is inserted, "23505" maps to the duplicate message and other errors to "Failed to create profile: …"; success iff both calls succeed |
| Signup.MissingIdentitiesIsNewUser | src/app/signup/page.tsx:70 | a user whose identities list is absent rather than empty goes on to the insert |
| Webhook.Post | src/app/api/webhooks/hubspot/route.ts:12-87 | every path's response is fixed: an unreadable body gives 500 with the caught message and a missing or falsy field 400, both before any call; a thrown auth call gives 500 with the caught message; an auth error saying the address is taken gives 409 "A user with this email already exists", any other `Auth error: <message>` with 500; a created result with no user gives 500 with the TypeError's message; after the user is created, a thrown insert gives 500 with its message, code "23505" gives 409 "Duplicate entry — …", any other insert error `Database error: <message>` with 500, each keeping the auth user; 409 iff one of the two conflicts; 200 iff the row is inserted, with `user_id` and row id both the new user's id |
| Webhook.NoRollback | src/app/api/webhooks/hubspot/route.ts:52-86 | an insert that fails or throws leaves the created auth user in place and inserts nothing |
| Webhook.VoucherStoredAsReceived | src/app/api/webhooks/hubspot/route.ts:49-59 | a lower-case voucher code is stored unchanged |
| Dashboard.TotalEarnings | src/app/dashboard/page.tsx:316-330 | the total is at most the sum of all amounts, and equal to it iff rows of any other status add nothing |
| Dashboard.TotalsPartition | src/app/dashboard/page.tsx:316-321 | every amount counts in exactly one of the paid total, the pending total and the rest |
| Dashboard.PaymentHistoryPaid | src/app/dashboard/page.tsx:24-31 | the history's paid total is 725 |
| Dashboard.PaymentHistoryPending | src/app/dashboard/page.tsx:24-31 | the history's pending total is 450 |
| Dashboard.PaymentHistoryTotals | src/app/dashboard/page.tsx:316-330 | 725 paid, 450 pending, 1175 total earnings |
| Dashboard.PaymentHistoryAmounts | src/app/dashboard/page.tsx:24-31 | every row's amount is 25 per referral |
| Dashboard.StatusBadge | src/app/dashboard/page.tsx:128-139 | the paid badge shows iff the status is "paid"; any other text, even one that is not a known status, shows the badge reading "Pending" |
| Dashboard.BadgeOfOtherStatus | src/app/dashboard/page.tsx:128-139 | a status other than "paid" or "pending" shows "Pending" yet adds to neither total |
| Dashboard.DashboardPage.constructor | src/app/dashboard/page.tsx:382-385 | the page starts checking, not authed, on the overview tab, with no prefill |
| Dashboard.DashboardPage.Content | src/app/dashboard/page.tsx:418-424 | content renders iff the check is over and the user is authed, and it is the selected tab |
| Dashboard.DashboardPage.SessionChecked | src/app/dashboard/page.tsx:387-400 | a session signs the user in; no session or an error redirects to /login and leaves the page checking |
| Dashboard.DashboardPage.AuthStateChanged | src/app/dashboard/page.tsx:402-408 | losing the session redirects to /login; nothing else changes |
| Dashboard.DashboardPage.SignOut | src/app/dashboard/page.tsx:413-416 | signing out redirects to /login |
| Dashboard.DashboardPage.SelectTab | src/app/dashboard/page.tsx:465 | the chosen tab is selected; nothing else changes |
| Dashboard.DashboardPage.NavigateToInvoices | src/app/dashboard/page.tsx:484-487 | the prefill is stored and the invoices tab opens |
| Dashboard.DashboardPage.PrefillConsumed | src/app/dashboard/page.tsx:493 | the prefill is dropped; nothing else changes |
| Dashboard.NoSessionScenario | src/app/dashboard/page.tsx:387-424 | without a session the page shows no content and has redirected to /login |
| Dashboard.HandoffScenario | src/app/dashboard/page.tsx:484-493 | a signed-in hand-off shows the invoices tab holding that video's prefill |
| Nudges.MatchAt | src/app/nudges/page.tsx:219 | a prefix is a `{{word}}` match iff it has exactly the length found |
| Nudges.MatchesArePlaceholders | src/app/nudges/page.tsx:219 | every match is a `{{word}}` token, braces included, and occurs in the template |
| Nudges.MatchesFindPlaceholder | src/app/nudges/page.tsx:219 | a placeholder anywhere in the template yields some match |
| Nudges.MatchesSkipBraceFree | src/app/nudges/page.tsx:219 | text without an opening brace contributes no match |
| Nudges.MatchesTakePlaceholder | src/app/nudges/page.tsx:219 | a placeholder at the start is matched whole before the rest |
| Nudges.IndexOf | src/app/nudges/page.tsx:220 | the index is −1 iff absent, else the first position holding the element |
| Nudges.FirstOccurrencesMembers | src/app/nudges/page.tsx:220 | the filter keeps exactly the elements first seen at or after the start |
| Nudges.FirstOccurrencesOrdered | src/app/nudges/page.tsx:220 | what it keeps is in strictly increasing order of first occurrence |
| Nudges.ChipsSpec | src/app/nudges/page.tsx:218-220 | the chips are exactly the matches, each a placeholder in the template, without duplicates, in order of first appearance |
| Nudges.MatchesWitness | src/app/nudges/page.tsx:219 | a template with matches has a placeholder |
| Nudges.NoMatchesIff | src/app/nudges/page.tsx:219 | the scan finds nothing iff the template has no placeholder |
| Nudges.NoPlaceholderNoChips | src/app/nudges/page.tsx:218-220 | a template shows no chips iff it has no placeholder |
| Nudges.FirstVideoNudgeChips | src/app/nudges/page.tsx:43-55 | the first rule's template shows exactly `{{first_name}}`, `{{city}}`, `{{creator_code}}`, in that order |
| Nudges.SixActiveRules | src/app/nudges/page.tsx:36-156 | the "active rules" label, the number of listed rules, is six, and the ids are 1 to 6 in order |
| Widgets.Disclosure.constructor | src/app/page.tsx:140 | a panel starts closed |
| Widgets.Disclosure.Toggle | src/app/nudges/page.tsx:169 | a click flips the panel |
| Widgets.ClickTwice | src/app/page.tsx:144 | one click opens a fresh panel and a second closes it |
| Widgets.IndependentPanels | src/app/dashboard/page.tsx:143-147 | clicking one panel leaves another closed |
| Landing.EarningsRates | src/app/page.tsx:277-278 | monthly earnings are 25 per subscriber, annual 300 per subscriber |
| Landing.DefaultEarnings | src/app/page.tsx:276-278 | the default 50 subscribers give 1250 a month and 15000 a year |
| Landing.EarningsOnSlider | src/app/page.tsx:436-437 | on the slider's range 1..500 the monthly figure lies in 25..12500 and both figures strictly increase with subscribers |

## Left out

- Network, auth, sessions and storage are not executed. Each call is replaced by its outcome (`UploadOutcome`, `WriteOutcome`, `AuthOutcome`, `AuthResult`, `SessionCheck`). The public URL of an upload is part of its outcome, and file names built from `Date.now()` are not modelled.
- The clock is a parameter (`now`). Timestamps are natural numbers, and `invoice_date` is a day number: its `YYYY-MM-DD` text orders the same way.
- Generated keys are natural numbers from the store's counter, where the backend makes UUIDs. The creator id of the creator tabs is the fixed `DemoCreatorId`.
- Concurrency is not modelled, and neither are the non-atomic interleaving of two writers or the refetches after a write. Each multi-step write is modelled as its steps, with a failure point after each.
- The "An unexpected error occurred." path (an exception thrown inside a page handler) is not modelled, and neither are the `submitting`/`loading` spinners. In the webhook, a thrown value is part of the outcome of the body read, the user creation and the insert (`Thrown`).
- `parseFloat` is not modelled. The amount field is an `Option<real>`, None while empty, with the `> 0` check on the value. `toFixed` and `toLocaleString` formatting is left out too.
- Text.ToLower and Text.ToUpper map ASCII letters only. JavaScript's `toLowerCase`/`toUpperCase` also map letters outside ASCII, so searches and voucher codes with such letters are not covered.
- The login page, the admin login form and its session check, the 8-second connection timeout, the HubSpot form script and its polling, clipboard and share links, charts and all styling are left out. The badge colours and the automation cards' channel colours are left out as well.
- The nudge rules: only rule 1's message template is reproduced as text. Rules 2–6 keep their id, title, trigger and channel. Their chips are described by the general `Nudges.ChipsSpec`, which holds for any template.
- Dashboard.DashboardPage.SessionChecked: `router.replace` is recorded as the last redirect path. Leaving the page is not modelled, so a page without a session stays in its checking state.
- The overview tab's charts and figures, other than the payouts totals, are not part of this model.
