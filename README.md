# Hanny's Hive donor pages, modelled in Dafny

This project models the logic in the donor-facing and admin pages of a charity website. It covers:

- **Donation page.** Two versions are modelled: the live page and an earlier validation-only one. Each holds the form state and its handlers, and runs the validation checks in a fixed order.
- **Monthly pledges.** A monthly submission looks up the user's active pledge, then updates it after a confirmation or inserts a new one.
- **One-time gifts.** A one-time submission appends a donation.
- **Donor dashboard.** It fetches the user's pledge and donation history, shows a status badge and action buttons, and can cancel the pledge.
- **Admin console.** It shows overview counts, a donor table with case-insensitive search and an All/Unpaid filter, a status cell and a reminder button per row, a gallery upload form, and the admin-only guard.
- **Contact page.** It has a message form with checks and an FAQ accordion.
- **Impact gallery.** It filters stories by category.

The hosted database is modelled as three in-memory tables: `Ledger.Store` holds `pledges` and `donations`, and `Admin.StoryTable` holds `impact_stories`. A store call that fails is an outcome parameter, and such a call writes nothing. Each page is a class whose fields are the page's state variables, and each handler is a method. The impact gallery's only state is its filter (`Impact.Gallery`); what it shows is the function `Impact.FilteredStories` of that filter.

Everything that comes from outside the page is a parameter of the method:

- the prompt answers;
- whether a request returned data;
- the clock;
- the date one month ahead;
- the generated reference id;
- the image-URL regular expression.

Modules, one per file:

- `Wrappers`, `Records`: the option type, and the rows and records of types.ts plus the two tables.
- `Seqs`: the order-preserving filter behind every `.filter` and `.eq` query, with its lemmas.
- `JsText`: the white-space set of JavaScript's `trim` and `\s`, ASCII case mapping, and `includes`.
- `EmailPattern`: the email regular expression, and its characterisation as a plain shape.
- `DonationRules`: the tier table, the tier label, the amount resolution, the donor-details record, the ordered checks, and the prefill name split.
- `Ledger`: the `.single()` lookups, the pledge update, insert and cancel, the one-active-pledge rule, and newest-first ordering.
- `Donate`, `DonateDraft`, `Dashboard`, `Admin`, `Contact`, `Impact`: the pages.

Four facts about the code shape the model:

- **Reactivation inserts a new row.** The donation page's lookup matches only active rows (src/pages/Donate.tsx:121-126), so pledging after a cancellation appends a new active row and the cancelled row stays (`Ledger.ReactivationAddsRow`).
- **The one-active-pledge rule holds only when the lookup request succeeds.** A failed `.single()` reads as no pledge, and the page then inserts a second active row (`Ledger.FailedLookupCanDuplicate`). `Ledger.MonthlyKeepsAtMostOneActive` proves the rule for a successful lookup.
- **A signed-in donor cannot edit the names or the email.** Those inputs are read-only while there is a user (src/pages/Donate.tsx:308, 319, 332). A profile with no name, or a name without a space, is prefilled with an empty last name (src/pages/Donate.tsx:32-36), so from then on every submission stops at the name check (`DonationRules.SignedInWithoutLastNameRejected`).
- **The dashboard looks up the pledge by user only,** with `.single()` (pages/UserDashboard.tsx:43-47). It shows no pledge once the user owns two rows (see Findings).

## Model

| member | source | states |
|---|---|---|
| JsText.TrimEmptyIffBlank | src/pages/Donate.tsx:101 | `trim()` gives the empty string exactly when every character is JavaScript white space |
| JsText.IncludesLower | pages/Admin.tsx:64 | a substring stays a substring after both sides are lower-cased |
| EmailPattern.EmailPatternIffShape | src/pages/Donate.tsx:106-107 | the email pattern accepts exactly the strings with no white space, exactly one '@' that is not the first character, and a '.' after the '@' that is neither the domain's first nor its last character |
| DonationRules.FindTier | src/pages/Donate.tsx:138 | `tiers.find` returns the first listed tier with that amount, and returns nothing exactly when no tier has that amount |
| DonationRules.TierLabelTable | src/pages/Donate.tsx:51-70 | 5000 is "Seed Plan", 10000 is "Hive Plan", 25000 is "Queen Plan", and any other amount is "Custom" |
| DonationRules.InputChangesOnlyNamedField | src/pages/Donate.tsx:82-88 | a change event sets only the field it names: the checkbox sets the anonymity flag and a text input sets its own text |
| DonationRules.ValidationOrder | src/pages/Donate.tsx:95-111 | each message is given exactly when every earlier check passed and its own check failed; a submission passes exactly when the amount is positive, both names are non-blank and the email has the accepted shape |
| DonationRules.JoinSplit | src/pages/Donate.tsx:32-36 | joining the pieces of `split(' ')` with spaces gives back the string |
| DonationRules.SplitPieces | src/pages/Donate.tsx:32 | a name with a space splits into at least two pieces; a name without one splits into itself |
| DonationRules.FirstPieceHasNoSpace | src/pages/Donate.tsx:35 | the prefilled first name holds no space |
| DonationRules.PrefillRoundTrip | src/pages/Donate.tsx:30-40 | with a space in the full name, first name + " " + last name equals the full name; without one, the last name is empty |
| DonationRules.PrefillWithoutName | src/pages/Donate.tsx:32-36 | a profile without a name prefills both names empty |
| DonationRules.SignedInKeepsDetails | src/pages/Donate.tsx:303-334 | however a signed-in user types, the names and the email stay as they were |
| DonationRules.SignedInWithoutLastNameRejected | src/pages/Donate.tsx:30-40 | a signed-in user with no profile name, or one without a space, is refused with the name message on every submission with a positive amount, whatever they type |
| Ledger.Single | src/pages/Donate.tsx:121-126 | `.single()` yields a row exactly when one row matches, and that row matches |
| Ledger.ActiveLookupSpec | src/pages/Donate.tsx:121-128 | the active-pledge lookup finds a row exactly when the user has one active pledge; the row it finds is that user's active row, at its id |
| Ledger.UpdateChangesOnlyAmountAndTier | src/pages/Donate.tsx:128-142 | a confirmed update changes only the amount and tier name of the found row; its user, status and next payment date stay, and so does every other row |
| Ledger.DeclinedUpdateChangesNothing | src/pages/Donate.tsx:129-133 | declining the update prompt leaves the table unchanged |
| Ledger.InsertWhenNoActivePledge | src/pages/Donate.tsx:143-155 | without a single active pledge, exactly one row is appended: the user's, active, with the amount's tier label, the next payment date and the next id |
| Ledger.UpdateKeepsActiveCounts | src/pages/Donate.tsx:134-140 | an amount and tier update leaves every user's number of active pledges unchanged |
| Ledger.AppendActiveCount | src/pages/Donate.tsx:144-152 | appending a row adds one to its owner's active count if the row is active, and changes no other count |
| Ledger.MonthlyKeepsAtMostOneActive | src/pages/Donate.tsx:121-155 | if every user had at most one active pledge before a monthly submission, every user has at most one after it |
| Ledger.FailedLookupCanDuplicate | src/pages/Donate.tsx:121-128 | for every table and either prompt answer, when the lookup request fails, the insert path gives a user who had exactly one active pledge a second one |
| Ledger.NoActiveRows | src/pages/Donate.tsx:125 | a user none of whose rows is active has no active pledge |
| Ledger.ReactivationAddsRow | src/pages/Donate.tsx:121-155 | pledging after a cancellation appends a new active row and keeps the cancelled one, so the user owns one more row |
| Ledger.SeedThenQueen | src/pages/Donate.tsx:121-155 | a 5000 pledge followed by a confirmed 25000 pledge leaves one new row: 25000, "Queen Plan", with the first submission's next payment date |
| Ledger.CancelChangesOnlyStatus | pages/UserDashboard.tsx:88-91 | cancelling sets the status of the row with that id and changes nothing else |
| Ledger.CancelIdempotent | pages/UserDashboard.tsx:88-94 | cancelling twice is the same as cancelling once |
| Ledger.CancelKeepsAtMostOneActive | pages/UserDashboard.tsx:88-91 | cancelling keeps the rule that no user has two active pledges |
| Ledger.InsertByDatePermutes | pages/UserDashboard.tsx:55 | inserting into the date-ordered list adds exactly that row |
| Ledger.PrependNewest | pages/UserDashboard.tsx:55 | a row no older than every row of a newest-first list can be put in front of it |
| Ledger.InsertByDateSorted | pages/UserDashboard.tsx:55 | inserting into a newest-first list keeps it newest first |
| Ledger.NewestFirstSpec | pages/UserDashboard.tsx:51-55 | the donation list is ordered newest `created_at` first and holds exactly the rows queried |
| Ledger.Store.constructor | src/pages/Donate.tsx:121-126 | the store starts with both tables empty |
| Ledger.Store.FindActivePledge | src/pages/Donate.tsx:121-126 | the query yields the user's active row exactly when the request succeeds and the user has one active pledge |
| Ledger.Store.FindUserPledge | pages/UserDashboard.tsx:43-47 | the query yields a row of the user exactly when the request succeeds and the user owns exactly one row |
| Ledger.Store.ListDonations | pages/UserDashboard.tsx:51-55 | the query yields the user's donations, newest first, as a permutation of the matching rows |
| Ledger.Store.UpdatePledgeAmount | src/pages/Donate.tsx:134-142 | a successful update sets amount and tier on the row with that id; a failed one writes nothing |
| Ledger.Store.InsertActivePledge | src/pages/Donate.tsx:144-154 | a successful insert appends the new active row with the next id; a failed one writes nothing |
| Ledger.Store.CancelPledge | pages/UserDashboard.tsx:88-93 | a successful cancel sets that row's status to cancelled; a failed one writes nothing |
| Ledger.Store.InsertDonation | src/pages/Donate.tsx:157-168 | a successful insert appends one "successful" donation with the donor id or none, the anonymity flag and the message "Donation by " + first name; the pledges table is untouched |
| Donate.WritesOnlyAfterChecks | src/pages/Donate.tsx:95-119 | the store is written only after every check has passed, and a monthly write also needs a signed-in user; a non-positive amount is always rejected with the amount message |
| Donate.SubmitPledge | src/pages/Donate.tsx:121-155 | with a pledge found, the submission updates its amount and tier if the user confirmed and keeps it otherwise; without one it inserts a new active pledge; donations are untouched; with a successful lookup and write, the pledges end as `Upsert` says, and at most one active pledge per user is preserved |
| Donate.DonateForm.constructor | src/pages/Donate.tsx:15-28 | the form starts monthly, with 10000 selected, an empty custom amount, empty details, no error, and no user recorded |
| Donate.DonateForm.PrefillFromUser | src/pages/Donate.tsx:30-40 | a signed-in user's name pieces and email replace the three text fields, and the form records whether there is a user; nothing else changes |
| Donate.DonateForm.SetFrequency | src/pages/Donate.tsx:222-232 | the toggle sets the frequency |
| Donate.DonateForm.HandleAmountSelect | src/pages/Donate.tsx:72-75 | selecting a tier sets its amount, clears the custom amount, and the amount resolved afterwards is the tier's |
| Donate.DonateForm.HandleCustomAmountChange | src/pages/Donate.tsx:77-80 | typing a custom amount zeroes the selection, so the amount resolved afterwards is the custom value |
| Donate.DonateForm.HandleInputChange | src/pages/Donate.tsx:82-88 | signed out, the details change as the named field's event says; signed in, the read-only names and email never change and only the anonymity flag can |
| Donate.DonateForm.HandleDonation | src/pages/Donate.tsx:90-180 | the submission takes the step the checks and the lookup decide; pledges change only by the update or the insert of that step and donations only by the one-time append; error, success and navigation follow the store's report; with a successful lookup and write, the pledges end as `Upsert` says, and at most one active pledge per user is preserved |
| DonateDraft.DraftDonateForm.constructor | pages/Donate.tsx:7-18 | the form starts monthly, with 10000 selected, an empty custom amount, empty details, and no error |
| DonateDraft.DraftDonateForm.SetFrequency | pages/Donate.tsx:100-110 | the toggle sets the frequency |
| DonateDraft.DraftDonateForm.HandleAmountSelect | pages/Donate.tsx:41-44 | selecting a tier sets its amount and clears the custom amount |
| DonateDraft.DraftDonateForm.HandleCustomAmountChange | pages/Donate.tsx:46-49 | typing a custom amount zeroes the selection |
| DonateDraft.DraftDonateForm.HandleInputChange | pages/Donate.tsx:51-57 | the details change as the named field's event says |
| DonateDraft.DraftDonateForm.HandleDonation | pages/Donate.tsx:59-82 | the error becomes the first failing check's message, or stays cleared; a confirmation of frequency, amount and first name is produced exactly when every check passes; no other field changes |
| DonateDraft.DraftAgreesWithLive | pages/Donate.tsx:63-77 | the draft accepts a form exactly when the live page's checks do, and rejects it with the same message |
| Dashboard.RedirectSpec | pages/UserDashboard.tsx:33-37 | nobody is redirected while authentication is pending and a signed-in user never is, while a visitor without a user is redirected once it settles |
| Dashboard.LoadingSpec | pages/UserDashboard.tsx:102-104 | the loading placeholder shows while authentication or the fetch is pending, and the dashboard shows only once both have finished |
| Dashboard.BadgeNamesStatus | pages/UserDashboard.tsx:135-143 | the badge is the upper-cased status (so "ACTIVE" for an active pledge), and "NONE" exactly when there is no pledge; different statuses give different badges |
| Dashboard.ActionsFollowStatus | pages/UserDashboard.tsx:147-184 | Modify and Pause/Cancel are offered exactly for an active pledge, Reactivate exactly for one that is not active, and Start a Pledge exactly when there is no pledge |
| Dashboard.CancelledCard | pages/UserDashboard.tsx:161-174 | after a cancel, the card offers Reactivate and the badge reads "CANCELLED" |
| Dashboard.LatestPledgeOf | pages/UserDashboard.tsx:43-49 | the corrected lookup finds a pledge exactly when the user owns a row, and it is one of the user's rows |
| Dashboard.LatestAgreesWithSingle | pages/UserDashboard.tsx:43-49 | wherever the lookup as written finds a pledge, the corrected lookup finds the same one |
| Dashboard.LatestAfterAppend | pages/UserDashboard.tsx:43-49 | the corrected lookup returns the row just appended for that user |
| Dashboard.ReactivatedPledgeHidden | pages/UserDashboard.tsx:43-49 | as written: after a cancel and a new pledge, the user has one active pledge, but the lookup finds none and the badge reads "NONE" |
| Dashboard.OneActiveAfterAppend | src/pages/Donate.tsx:144-152 | appending an active row for a user with no active pledge gives the user exactly one |
| Dashboard.ReactivatedPledgeShown | pages/UserDashboard.tsx:43-49 | corrected: after the same steps the lookup finds the new active pledge, the badge reads "ACTIVE" and the card offers Modify and Cancel |
| Dashboard.CancelledThenPledgedAgain | pages/UserDashboard.tsx:43-49 | concretely, a cancelled 10000 pledge followed by a new 5000 pledge is hidden by the lookup as written and shown by the corrected one |
| Dashboard.UserDashboard.constructor | pages/UserDashboard.tsx:28-30 | the dashboard starts with no pledge, no donations, and loading |
| Dashboard.UserDashboard.FetchData | pages/UserDashboard.tsx:39-66 | without a user nothing changes and loading continues; with one, the pledge and the donations are replaced when their requests return data, the list is newest first and holds only the user's donations, and loading ends |
| Dashboard.UserDashboard.HandleCancelPledge | pages/UserDashboard.tsx:84-100 | with no pledge or a declined prompt, nothing changes; else the store cancels that row, and on success the shown pledge becomes cancelled, while a failure is reported and leaves the shown pledge as it was; the one-active-pledge rule and the shown pledge's agreement with its store row are kept |
| Admin.UnpaidAtMostActive | pages/Admin.tsx:30-31 | the unpaid count is at most the active count, which is at most the number of rows |
| Admin.SearchSpec | pages/Admin.tsx:64 | the search ignores the term's case; a row with neither name nor email never matches; the empty term matches exactly the rows that have one; a name or email containing the term matches |
| Admin.FilteredSpec | pages/Admin.tsx:63-67 | "All" keeps the search matches, and "Unpaid" keeps the search matches that are unpaid and active; both keep input order, and the Unpaid list is a subsequence of the All list |
| Admin.FilteredMembership | pages/Admin.tsx:63-67 | a row is listed exactly when it is in the input, matches the search and passes the filter |
| Admin.EmptySearchMatchesCounts | pages/Admin.tsx:63-67 | with an empty term over rows that each have a name or an email, the Unpaid list has exactly the unpaid count of rows and the All list is every row |
| Admin.ToggleInvolution | pages/Admin.tsx:91 | the toggle always changes the filter, and two toggles restore it |
| Admin.ToggleCaption | pages/Admin.tsx:94 | the button's caption names the view a click switches to |
| Admin.UserManagement.constructor | pages/Admin.tsx:55-56 | the table starts with an empty search and the All filter |
| Admin.UserManagement.SetSearchTerm | pages/Admin.tsx:87 | typing sets the search term |
| Admin.UserManagement.ToggleFilter | pages/Admin.tsx:91 | a click switches the filter between All and Unpaid |
| Admin.StatusCellSpec | pages/Admin.tsx:123-139 | "Paid" takes precedence; otherwise an active pledge shows "Unpaid", and anything else shows "Inactive"; Remind appears exactly for the rows counted as unpaid, and those show "Unpaid" |
| Admin.RemindersMatchUnpaidCount | pages/Admin.tsx:139 | the number of rows offering Remind equals the overview's unpaid count |
| Admin.UnpaidCellWithoutReminder | pages/Admin.tsx:123-139 | an active pledge with "No Pledge" for the month shows "Unpaid" but offers no reminder |
| Admin.StoryInputChangesOnlyItsField | pages/Admin.tsx:225-277 | a gallery form edit sets the field it names and keeps the other four |
| Admin.StoryTable.constructor | pages/Admin.tsx:192-198 | the stories table starts empty |
| Admin.StoryTable.Insert | pages/Admin.tsx:192-198 | a successful insert appends the row; a failed one writes nothing |
| Admin.GalleryUpload.constructor | pages/Admin.tsx:158-166 | the form starts empty with category Orphans, not loading, and without an error |
| Admin.GalleryUpload.HandleChange | pages/Admin.tsx:225-277 | the form changes as the edit says |
| Admin.GalleryUpload.HandleSubmit | pages/Admin.tsx:173-208 | a URL the pattern rejects sets the URL message, inserts nothing and keeps the form; otherwise the fields are inserted, and success announces the story and resets the form to empty with Orphans, while failure shows the store's message and keeps the form; loading ends |
| Admin.GuardSpec | pages/Admin.tsx:302-306 | a signed-in admin is never redirected, nobody is redirected while authentication is pending, and once it settles a visitor without a user or without the admin role is redirected |
| Admin.AdminPage.constructor | pages/Admin.tsx:299 | the console starts with no donor rows |
| Admin.AdminPage.LoadOverview | pages/Admin.tsx:309-323 | the donor rows are replaced only for an admin whose request returned without error |
| Contact.WithFieldChangesOnlyThatField | pages/Contact.tsx:35-40 | an input event sets the field it names and keeps the other three |
| Contact.ContactChecks | pages/Contact.tsx:47-55 | a blank name or message gives the required-fields message; otherwise an email of the wrong shape gives the email message; the subject never matters |
| Contact.FaqToggled | pages/Contact.tsx:148 | after a click the open item is the clicked one or none |
| Contact.FaqToggleSpec | pages/Contact.tsx:148 | clicking the open item closes it and clicking another opens it; two clicks on an item that was closed leave it closed |
| Contact.ContactForm.constructor | pages/Contact.tsx:7-14 | the first FAQ item starts open, the fields are empty, and there is no status |
| Contact.ContactForm.HandleInputChange | pages/Contact.tsx:35-40 | the form changes as the named field's event says |
| Contact.ContactForm.HandleSubmit | pages/Contact.tsx:42-60 | a failed check shows its error and keeps the form; a passing submission shows the sent message and clears all four fields |
| Contact.ContactForm.ToggleFaq | pages/Contact.tsx:148 | the open item becomes what the click decides |
| Impact.FilterButtonsSpec | src/pages/Impact.tsx:14 | each filter has exactly one button |
| Impact.FilteredStoriesSpec | src/pages/Impact.tsx:26 | "All" shows every story; a category shows exactly its stories, in order; filtering again changes nothing, and the result is never longer than the list |
| Impact.CategoriesPartition | src/pages/Impact.tsx:26 | the four category views together show every story exactly once |
| Impact.CountStep | src/pages/Impact.tsx:26 | a category count over a suffix is the first story's contribution plus the count of the rest |
| Impact.OrphanStories | src/pages/Impact.tsx:17-24 | an illustration on the page's own six stories: the Orphans view shows two of them |
| Impact.Gallery.constructor | src/pages/Impact.tsx:11 | the gallery opens on "All" and shows every story |
| Impact.Gallery.SetFilter | src/pages/Impact.tsx:58 | a filter button's click selects its filter |

## Left out

- Network I/O and the backend client (lib/supabaseClient.ts, src/lib/supabaseClient.ts). Each store call is an operation on the in-memory tables, and its result is an outcome parameter.
- `Number(customAmount)`. The custom amount is an already-parsed integer, and the empty text stands for 0. NaN, fractions and non-numeric text are not modelled. In the source, NaN passes `amount <= 0`.
- The date one month ahead. It comes from JavaScript `setMonth` with day overflow, and here it is a parameter. The `created_at` clock and the `REF-<Date.now()>` reference id are parameters too.
- Row ids. The hosted store generates them; here a row's id is its position, which keeps ids unique. Row timestamps other than `created_at` are not modelled.
- The image-URL regular expression (pages/Admin.tsx:178-183). It is an uninterpreted `string -> bool` parameter.
- The browser's own input checks, which run before a submit handler: the `required` fields of the gallery form, `type="email"` at src/pages/Donate.tsx:328 (while the input is not read-only), pages/Donate.tsx:201 and pages/Contact.tsx:107, and `type="url"` at pages/Admin.tsx:260. The handlers' own checks are modelled.
- Ties in `created_at`. `.order('created_at', { ascending: false })` does not fix the order of donations with the same timestamp. `Ledger.NewestFirst` keeps them in stored order, and `Dashboard.UserDashboard.FetchData` promises that one order; every lemma about the listing needs only the newest-first order and the permutation.
- Case mapping is ASCII only. JavaScript's full Unicode `toLowerCase` and `toUpperCase` are not modelled.
- `window.confirm`, `alert`, `navigate` with its two-second delay, `console.error`, and the `mailto:` reminder (`sendReminder`).
  - Confirmations are boolean inputs.
  - Navigation is a returned value.
  - The alerts and the reminder mail are not modelled.
- `current_month_status` and `last_donation_date` come from the `admin_donor_overview` database view, which is not in the repository. They are input fields.
- `isAdmin` and the authentication state come from an authentication context that is not part of this model. They are parameters.
- Concurrency. The race between two submissions, each doing its lookup before inserting, is not modelled.
- The `paused` status. It is part of the data type, but no page ever assigns it.
- Presentation: animations, `toLocaleString` and date formatting, and the display fallbacks. Those fallbacks are `'Anonymous'`, `'N/A'` and `'Never'` for a missing value, `tier_name || 'Custom'` in the admin table, and the `|| 0` of the draft page's Pay caption. Also left out: the admin sidebar and tabs, and the FAQ text.
- Pages not modelled: the sign-in page, routing, and the static home, about and transparency pages.
- Dashboard.UserDashboard.FetchData follows the source as written. It uses the user-only `.single()` lookup, whose failure mode after reactivation is the finding below. Dashboard.LatestPledgeOf is the corrected lookup.

## Findings

| source | as written | input that shows it | evidently intended | confidence | as-written member | corrected member |
|---|---|---|---|---|---|---|
| pages/UserDashboard.tsx:43-49 | the dashboard loads the pledge with `.eq('user_id', id).single()`, which yields a row only when the user owns exactly one pledge row | a user cancels a pledge, then reactivates it from the donation page; reactivation inserts a second row, because that page's lookup only matches active rows | show the user's current pledge: the new active one | not executed | Dashboard.ReactivatedPledgeHidden | Dashboard.ReactivatedPledgeShown |

In the failing case the dashboard shows "NONE" and "Start a Pledge" although the user has an active pledge. The corrected pledge is the user's latest row, `Dashboard.LatestPledgeOf`.
