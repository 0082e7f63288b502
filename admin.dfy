/**
 * The admin console (pages/Admin.tsx): the overview counts and the donor table over the rows
 * of the `admin_donor_overview` view, its search and All/Unpaid filter, the per-row status
 * cell and reminder button, the gallery upload form, and the admin-only access guard.
 */
module Admin {
  import opened Wrappers
  import opened Records
  import opened Seqs
  import opened JsText

  /** `current_month_status === 'Unpaid' && pledge_status === 'active'`. */
  predicate IsUnpaidActive(u: AdminDonorView)
  {
    u.currentMonthStatus == Unpaid && u.pledgeStatus == Active
  }

  /** `pledge_status === 'active'`. */
  predicate IsActiveRow(u: AdminDonorView)
  {
    u.pledgeStatus == Active
  }

  /** `unpaidCount` of the overview. */
  function UnpaidCount(users: seq<AdminDonorView>): nat
  {
    |Filter(users, IsUnpaidActive)|
  }

  /** `totalActive` of the overview. */
  function TotalActive(users: seq<AdminDonorView>): nat
  {
    |Filter(users, IsActiveRow)|
  }

  /** Every unpaid member counted is also an active member counted. */
  lemma UnpaidAtMostActive(users: seq<AdminDonorView>)
    ensures UnpaidCount(users) <= TotalActive(users) <= |users|
  {
    FilterLengthPointwise(users, users, IsUnpaidActive, IsActiveRow);
  }

  /** A field that is present contains the term, both lower-cased. */
  predicate FieldMatches(field: Option<string>, term: string)
  {
    field.Some? && Includes(ToLower(field.value), ToLower(term))
  }

  /** `full_name?.toLowerCase().includes(t) || email?.toLowerCase().includes(t)`. */
  predicate MatchesSearch(u: AdminDonorView, term: string)
  {
    FieldMatches(u.fullName, term) || FieldMatches(u.email, term)
  }

  /** The search ignores case, needs a name or an email to match at all, and the empty term
      matches exactly the rows that have one of them. A name or email that contains the term
      as typed always matches. */
  lemma SearchSpec(u: AdminDonorView, term: string)
    ensures MatchesSearch(u, term) == MatchesSearch(u, ToLower(term))
    ensures u.fullName.None? && u.email.None? ==> !MatchesSearch(u, term)
    ensures MatchesSearch(u, "") <==> u.fullName.Some? || u.email.Some?
    ensures (u.fullName.Some? && Includes(u.fullName.value, term)) || (u.email.Some? && Includes(u.email.value, term)) ==>
      MatchesSearch(u, term)
  {
    ToLowerIdempotent(term);
    assert ToLower("") == "";
    if u.fullName.Some? {
      IncludesEmpty(ToLower(u.fullName.value));
      if Includes(u.fullName.value, term) {
        IncludesLower(u.fullName.value, term);
      }
    }
    if u.email.Some? {
      IncludesEmpty(ToLower(u.email.value));
      if Includes(u.email.value, term) {
        IncludesLower(u.email.value, term);
      }
    }
  }

  /** `'All' | 'Unpaid'` of the donor table. */
  datatype ViewFilter = ShowAll | UnpaidOnly

  /** `matchesFilter`. */
  predicate MatchesFilter(u: AdminDonorView, f: ViewFilter)
  {
    f == ShowAll || IsUnpaidActive(u)
  }

  function SearchFor(term: string): AdminDonorView -> bool
  {
    (u: AdminDonorView) => MatchesSearch(u, term)
  }

  /** The predicate `filteredUsers` keeps rows by. */
  function Keeps(term: string, f: ViewFilter): AdminDonorView -> bool
  {
    (u: AdminDonorView) => MatchesSearch(u, term) && MatchesFilter(u, f)
  }

  /** `filteredUsers`. */
  function Filtered(users: seq<AdminDonorView>, term: string, f: ViewFilter): seq<AdminDonorView>
  {
    Filter(users, Keeps(term, f))
  }

  /** "All" keeps every search match and "Unpaid" keeps the search matches that are unpaid and
      active; both keep the rows in their input order, and the Unpaid list is a subsequence
      of the All list. */
  lemma FilteredSpec(users: seq<AdminDonorView>, term: string)
    ensures Filtered(users, term, ShowAll) == Filter(users, SearchFor(term))
    ensures Filtered(users, term, UnpaidOnly) == Filter(Filtered(users, term, ShowAll), IsUnpaidActive)
    ensures IsSubsequence(Filtered(users, term, ShowAll), users)
    ensures IsSubsequence(Filtered(users, term, UnpaidOnly), Filtered(users, term, ShowAll))
  {
    FilterAgreeing(users, Keeps(term, ShowAll), SearchFor(term));
    FilterConjunction(users, SearchFor(term), IsUnpaidActive, Keeps(term, UnpaidOnly));
    FilterIsSubsequence(users, Keeps(term, ShowAll));
    FilterIsSubsequence(Filtered(users, term, ShowAll), IsUnpaidActive);
  }

  /** A row is listed exactly when it is in the input, matches the search and passes the filter. */
  lemma FilteredMembership(users: seq<AdminDonorView>, term: string, f: ViewFilter, u: AdminDonorView)
    ensures u in Filtered(users, term, f) <==> u in users && MatchesSearch(u, term) && (f == UnpaidOnly ==> IsUnpaidActive(u))
  {
    FilterMembership(users, Keeps(term, f), u);
  }

  /** With an empty search over rows that all have a name or an email, the Unpaid list has
      exactly as many rows as the overview's unpaid count, and the All list is every row. */
  lemma EmptySearchMatchesCounts(users: seq<AdminDonorView>)
    requires forall k :: 0 <= k < |users| ==> users[k].fullName.Some? || users[k].email.Some?
    ensures |Filtered(users, "", UnpaidOnly)| == UnpaidCount(users)
    ensures Filtered(users, "", ShowAll) == users
  {
    forall k | 0 <= k < |users| ensures MatchesSearch(users[k], "") {
      SearchSpec(users[k], "");
    }
    FilterAgreeing(users, Keeps("", UnpaidOnly), IsUnpaidActive);
    FilterKeepsAll(users, Keeps("", ShowAll));
  }

  /** The toggle button's click. */
  function Toggled(f: ViewFilter): ViewFilter
  {
    if f == ShowAll then UnpaidOnly else ShowAll
  }

  /** The toggle always changes the filter, and two clicks restore it. */
  lemma ToggleInvolution(f: ViewFilter)
    ensures Toggled(f) != f
    ensures Toggled(Toggled(f)) == f
  {
  }

  /** The toggle button's caption names the view a click switches to. */
  function ToggleCaption(f: ViewFilter): (r: string)
    ensures r == (if Toggled(f) == ShowAll then "Show All" else "Show Unpaid Only")
  {
    if f == UnpaidOnly then "Show All" else "Show Unpaid Only"
  }

  /** The donor table's search box and All/Unpaid filter. */
  class UserManagement {
    var searchTerm: string
    var filter: ViewFilter

    constructor ()
      ensures searchTerm == "" && filter == ShowAll
    {
      searchTerm := "";
      filter := ShowAll;
    }

    /** The rows the table lists. */
    function Shown(users: seq<AdminDonorView>): seq<AdminDonorView>
      reads this
    {
      Filtered(users, searchTerm, filter)
    }

    method SetSearchTerm(term: string)
      modifies this`searchTerm
      ensures searchTerm == term
    {
      searchTerm := term;
    }

    method ToggleFilter()
      modifies this`filter
      ensures filter == Toggled(old(filter))
    {
      filter := Toggled(filter);
    }
  }

  /** The status column of a donor row. */
  datatype StatusCell = PaidCell | UnpaidCell | InactiveCell

  /** `Paid` first, then an active pledge shows `Unpaid`, otherwise `Inactive`. */
  function StatusCellOf(u: AdminDonorView): StatusCell
  {
    if u.currentMonthStatus == Paid then PaidCell
    else if u.pledgeStatus == Active then UnpaidCell
    else InactiveCell
  }

  /** The Remind button of a donor row. */
  predicate RemindShown(u: AdminDonorView)
  {
    u.currentMonthStatus == Unpaid && u.pledgeStatus == Active
  }

  /** `Paid` takes precedence over the pledge status; an active pledge not paid for shows
      `Unpaid`; the reminder is offered exactly for the rows the overview counts as unpaid,
      and each of them shows `Unpaid`. */
  lemma StatusCellSpec(u: AdminDonorView)
    ensures StatusCellOf(u) == PaidCell <==> u.currentMonthStatus == Paid
    ensures StatusCellOf(u) == UnpaidCell <==> u.currentMonthStatus != Paid && u.pledgeStatus == Active
    ensures StatusCellOf(u) == InactiveCell <==> u.currentMonthStatus != Paid && u.pledgeStatus != Active
    ensures RemindShown(u) <==> IsUnpaidActive(u)
    ensures RemindShown(u) ==> StatusCellOf(u) == UnpaidCell
  {
  }

  /** Reminders go out for as many rows as the overview reports unpaid. */
  lemma RemindersMatchUnpaidCount(users: seq<AdminDonorView>)
    ensures |Filter(users, RemindShown)| == UnpaidCount(users)
  {
    FilterAgreeing(users, RemindShown, IsUnpaidActive);
  }

  /** A row with an active pledge and no pledge status for the month shows `Unpaid` but
      offers no reminder: the cell and the button do not test the same thing. */
  lemma UnpaidCellWithoutReminder()
    ensures var u := AdminDonorView("u", Some("Ada"), None, "", 5000, "Seed Plan", Active, None, NoPledge);
      StatusCellOf(u) == UnpaidCell && !RemindShown(u)
  {
  }

  const UrlMessage := "Please enter a valid Image URL (must start with http/https)."

  /** The gallery form's fields, which are also the fields of the row it inserts into
      `impact_stories`. */
  datatype StoryFields = StoryFields(title: string, category: Category, date: string, description: string, imageUrl: string)

  const BlankStory := StoryFields("", Orphans, "", "", "")

  /** One edit of the gallery form. */
  datatype StoryInput =
    | TitleInput(title: string)
    | CategoryInput(category: Category)
    | DateInput(date: string)
    | DescriptionInput(description: string)
    | ImageUrlInput(imageUrl: string)

  /** `setFormData({...formData, <field>: e.target.value})`. */
  function WithStoryInput(form: StoryFields, input: StoryInput): StoryFields
  {
    match input
    case TitleInput(v) => form.(title := v)
    case CategoryInput(c) => form.(category := c)
    case DateInput(v) => form.(date := v)
    case DescriptionInput(v) => form.(description := v)
    case ImageUrlInput(v) => form.(imageUrl := v)
  }

  /** An edit sets the field it names and keeps the other four. */
  lemma StoryInputChangesOnlyItsField(form: StoryFields, input: StoryInput)
    ensures var r := WithStoryInput(form, input);
      (r.title == if input.TitleInput? then input.title else form.title) &&
      (r.category == if input.CategoryInput? then input.category else form.category) &&
      (r.date == if input.DateInput? then input.date else form.date) &&
      (r.description == if input.DescriptionInput? then input.description else form.description) &&
      (r.imageUrl == if input.ImageUrlInput? then input.imageUrl else form.imageUrl)
  {
  }

  /** The `impact_stories` table, kept in memory. */
  class StoryTable {
    var rows: seq<StoryFields>

    constructor ()
      ensures rows == []
    {
      rows := [];
    }

    method Insert(row: StoryFields, outcome: StoreOutcome)
      modifies this
      ensures rows == if outcome.Succeeded? then old(rows) + [row] else old(rows)
    {
      if outcome.Succeeded? {
        rows := rows + [row];
      }
    }
  }

  /** The gallery upload form. */
  class GalleryUpload {
    var loading: bool
    var form: StoryFields
    var errorMsg: Option<string>

    constructor ()
      ensures !loading && form == BlankStory && errorMsg == None
    {
      loading := false;
      form := BlankStory;
      errorMsg := None;
    }

    method HandleChange(input: StoryInput)
      modifies this`form
      ensures form == WithStoryInput(old(form), input)
    {
      form := WithStoryInput(form, input);
    }

    /** `handleSubmit`: an image URL the pattern rejects sets the URL message and inserts
        nothing; otherwise the form's fields are inserted, and a successful insert is
        announced (`added`) and resets the form, while a failed one shows the store's message
        and keeps the form. The URL pattern is the host's regular expression. */
    method HandleSubmit(table: StoryTable, urlPattern: string -> bool, outcome: StoreOutcome) returns (added: bool)
      requires table != this as object
      modifies this, table
      ensures !loading
      ensures !urlPattern(old(form).imageUrl) ==>
        !added && errorMsg == Some(UrlMessage) && form == old(form) && table.rows == old(table.rows)
      ensures urlPattern(old(form).imageUrl) ==>
        added == outcome.Succeeded? &&
        table.rows == (if outcome.Succeeded? then old(table.rows) + [old(form)] else old(table.rows)) &&
        form == (if outcome.Succeeded? then BlankStory else old(form)) &&
        errorMsg == (if outcome.Succeeded? then None else Some(outcome.message))
    {
      loading := true;
      errorMsg := None;
      added := false;
      if !urlPattern(form.imageUrl) {
        errorMsg := Some(UrlMessage);
        loading := false;
        return;
      }
      table.Insert(form, outcome);
      if outcome.Succeeded? {
        added := true;
        form := BlankStory;
      } else {
        errorMsg := Some(outcome.message);
      }
      loading := false;
    }
  }

  /** The guard effect: once authentication settles, anyone but a signed-in admin is sent to
      the sign-in page. */
  predicate MustRedirect(authLoading: bool, user: Option<UserProfile>, isAdmin: bool)
  {
    !authLoading && (user.None? || !isAdmin)
  }

  /** The signed-in admin is never redirected, and nobody is while authentication is pending. */
  lemma GuardSpec(authLoading: bool, user: Option<UserProfile>, isAdmin: bool)
    ensures user.Some? && isAdmin ==> !MustRedirect(authLoading, user, isAdmin)
    ensures authLoading ==> !MustRedirect(authLoading, user, isAdmin)
    ensures !authLoading && !isAdmin ==> MustRedirect(authLoading, user, isAdmin)
    ensures !authLoading && user.None? ==> MustRedirect(authLoading, user, isAdmin)
  {
  }

  /** The console's donor data, read from the overview view. */
  class AdminPage {
    var donorData: seq<AdminDonorView>

    constructor ()
      ensures donorData == []
    {
      donorData := [];
    }

    /** The fetch effect: only for an admin, and only a request that returned without an error
        replaces the rows. */
    method LoadOverview(isAdmin: bool, ok: bool, rows: seq<AdminDonorView>)
      modifies this
      ensures donorData == if isAdmin && ok then rows else old(donorData)
    {
      if isAdmin && ok {
        donorData := rows;
      }
    }
  }
}
