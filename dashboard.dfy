/**
 * The donor dashboard (pages/UserDashboard.tsx): it loads the signed-in user's pledge and
 * donation history, shows the pledge's status badge and actions, and cancels the pledge.
 */
module Dashboard {
  import opened Wrappers
  import opened Records
  import opened Seqs
  import opened JsText
  import opened DonationRules
  import opened Ledger

  /** The page sends a visitor to the sign-in page once authentication has settled without a user. */
  predicate MustRedirect(authLoading: bool, user: Option<UserProfile>)
  {
    !authLoading && user.None?
  }

  /** The loading placeholder is shown while either authentication or the fetch is pending. */
  predicate ShowsLoading(authLoading: bool, fetchLoading: bool)
  {
    authLoading || fetchLoading
  }

  /** Nobody is redirected while authentication is pending, a signed-in user never is, and a
      visitor without a user is once it has settled. */
  lemma RedirectSpec(authLoading: bool, user: Option<UserProfile>)
    ensures authLoading ==> !MustRedirect(authLoading, user)
    ensures user.Some? ==> !MustRedirect(authLoading, user)
    ensures !authLoading && user.None? ==> MustRedirect(authLoading, user)
  {
  }

  /** The placeholder stays up while either request is pending, and the dashboard itself shows
      only when both have finished. */
  lemma LoadingSpec(authLoading: bool, fetchLoading: bool)
    ensures authLoading || fetchLoading ==> ShowsLoading(authLoading, fetchLoading)
    ensures !ShowsLoading(authLoading, fetchLoading) <==> !authLoading && !fetchLoading
  {
  }

  /** The badge in the pledge card's header: `ACTIVE`, the upper-cased status, or `NONE`. */
  function Badge(pledge: Option<Pledge>): string
  {
    match pledge
    case None => "NONE"
    case Some(p) => if p.status == Active then "ACTIVE" else ToUpper(StatusText(p.status))
  }

  /** The badge names the pledge's status in capitals (the `ACTIVE` branch says the same as
      the general one), and `NONE` only when there is no pledge; distinct statuses get
      distinct badges. */
  lemma BadgeNamesStatus(pledge: Option<Pledge>, other: Option<Pledge>)
    ensures pledge.Some? ==> Badge(pledge) == ToUpper(StatusText(pledge.value.status))
    ensures Badge(pledge) == "NONE" <==> pledge.None?
    ensures pledge.Some? && other.Some? && Badge(pledge) == Badge(other) ==> pledge.value.status == other.value.status
  {
    assert ToUpper("active") == "ACTIVE";
    assert ToUpper("paused") == "PAUSED";
    assert ToUpper("cancelled") == "CANCELLED";
  }

  /** What the pledge card offers. */
  datatype CardActions =
    | ModifyOrCancel  // `Modify Amount` and `Pause/Cancel`, for an active pledge
    | Reactivate      // `Reactivate Pledge`, for a paused or cancelled one
    | StartPledge     // `Start a Pledge`, when there is none

  function Actions(pledge: Option<Pledge>): (r: CardActions)
  {
    match pledge
    case None => StartPledge
    case Some(p) => if p.status == Active then ModifyOrCancel else Reactivate
  }

  /** The cancel button is offered exactly for an active pledge, and reactivation exactly for
      a pledge that is not active. */
  lemma ActionsFollowStatus(pledge: Option<Pledge>)
    ensures Actions(pledge) == ModifyOrCancel <==> pledge.Some? && pledge.value.status == Active
    ensures Actions(pledge) == Reactivate <==> pledge.Some? && pledge.value.status != Active
    ensures Actions(pledge) == StartPledge <==> Badge(pledge) == "NONE"
  {
    BadgeNamesStatus(pledge, pledge);
  }

  /** The user's most recent pledge row, whatever its status: the lookup the dashboard
      evidently means, which still finds the pledge after the user cancelled one pledge and
      started another. */
  function LatestPledgeOf(ps: seq<Pledge>, uid: UserId): (r: Option<Pledge>)
    ensures r.Some? <==> Filter(ps, OwnedBy(uid)) != []
    ensures r.Some? ==> r.value in ps && r.value.userId == uid
  {
    var mine := Filter(ps, OwnedBy(uid));
    if mine == [] then None else (assert mine[|mine| - 1] in mine; Some(mine[|mine| - 1]))
  }

  /** Where the lookup as written finds a pledge, the latest-row lookup finds the same one. */
  lemma LatestAgreesWithSingle(ps: seq<Pledge>, uid: UserId)
    ensures UserLookup(ps, uid).Some? ==> LatestPledgeOf(ps, uid) == UserLookup(ps, uid)
  {
  }

  /** A row the user just added is what the latest-row lookup returns. */
  lemma LatestAfterAppend(ps: seq<Pledge>, row: Pledge)
    ensures LatestPledgeOf(ps + [row], row.userId) == Some(row)
  {
    FilterAppend(ps, [row], OwnedBy(row.userId));
    assert Filter([row], OwnedBy(row.userId)) == [row] + Filter([], OwnedBy(row.userId));
  }

  /** As written: a user whose pledge was cancelled and who then pledges again owns two rows,
      so the dashboard's `.single()` lookup returns nothing and the page shows `NONE` and
      `Start a Pledge` although the user has an active pledge. */
  lemma ReactivatedPledgeHidden(ps: seq<Pledge>, uid: UserId, amount: int, nextPaymentDate: Timestamp)
    requires forall k :: 0 <= k < |ps| && ps[k].userId == uid ==> ps[k].status != Active
    requires Filter(ps, OwnedBy(uid)) != []
    ensures var qs := Upsert(ps, uid, amount, true, nextPaymentDate);
      ActiveCount(qs, uid) == 1 && UserLookup(qs, uid) == None && Badge(UserLookup(qs, uid)) == "NONE"
  {
    ReactivationAddsRow(ps, uid, amount, nextPaymentDate);
    var row := NewActivePledge(ps, uid, amount, nextPaymentDate);
    var qs := Upsert(ps, uid, amount, true, nextPaymentDate);
    assert qs == ps + [row];
    assert |Filter(qs, OwnedBy(uid))| >= 2;
    assert UserLookup(qs, uid) == None;
    OneActiveAfterAppend(ps, row);
  }

  lemma OneActiveAfterAppend(ps: seq<Pledge>, row: Pledge)
    requires forall k :: 0 <= k < |ps| && ps[k].userId == row.userId ==> ps[k].status != Active
    requires row.status == Active
    ensures ActiveCount(ps + [row], row.userId) == 1
  {
    NoActiveRows(ps, row.userId);
    FilterAppend(ps, [row], ActiveOf(row.userId));
    assert Filter([row], ActiveOf(row.userId)) == [row] + Filter([], ActiveOf(row.userId));
  }

  /** Corrected: after the same cancel-then-pledge sequence the latest-row lookup returns the
      new active pledge, so the card shows `ACTIVE` and offers modify and cancel. */
  lemma ReactivatedPledgeShown(ps: seq<Pledge>, uid: UserId, amount: int, nextPaymentDate: Timestamp)
    requires forall k :: 0 <= k < |ps| && ps[k].userId == uid ==> ps[k].status != Active
    ensures var qs := Upsert(ps, uid, amount, true, nextPaymentDate);
      LatestPledgeOf(qs, uid) == Some(NewActivePledge(ps, uid, amount, nextPaymentDate)) &&
      Badge(LatestPledgeOf(qs, uid)) == "ACTIVE" && Actions(LatestPledgeOf(qs, uid)) == ModifyOrCancel
  {
    ReactivationAddsRow(ps, uid, amount, nextPaymentDate);
    LatestAfterAppend(ps, NewActivePledge(ps, uid, amount, nextPaymentDate));
  }

  /** One concrete run: a cancelled pledge, then a new monthly pledge of 5000. */
  lemma CancelledThenPledgedAgain()
    ensures var ps := [Pledge(0, "u", 10000, "Hive Plan", Cancelled, 0)];
      var qs := Upsert(ps, "u", 5000, true, 1);
      UserLookup(qs, "u") == None && LatestPledgeOf(qs, "u") == Some(Pledge(1, "u", 5000, "Seed Plan", Active, 1))
  {
    var ps := [Pledge(0, "u", 10000, "Hive Plan", Cancelled, 0)];
    assert Filter(ps, OwnedBy("u")) == [ps[0]] + Filter([], OwnedBy("u"));
    ReactivatedPledgeHidden(ps, "u", 5000, 1);
    ReactivatedPledgeShown(ps, "u", 5000, 1);
    assert TierLabel(5000) == "Seed Plan" by { TierLabelTable(5000); }
  }

  class UserDashboard {
    var pledge: Option<Pledge>
    var donations: seq<Donation>
    var fetchLoading: bool

    constructor ()
      ensures pledge == None && donations == [] && fetchLoading
    {
      pledge := None;
      donations := [];
      fetchLoading := true;
    }

    /** The fetch effect. Without a user it returns at once and the page keeps loading. With
        one, a pledge or donation list that came back replaces the shown one (a request that
        failed or matched no single row leaves it as it was), and loading ends. */
    method FetchData(store: Store, user: Option<UserProfile>, pledgeOk: bool, donationsOk: bool)
      modifies this
      ensures user.None? ==> pledge == old(pledge) && donations == old(donations) && fetchLoading == old(fetchLoading)
      ensures user.Some? ==>
        var found := if pledgeOk then UserLookup(store.pledges, user.value.id) else None;
        pledge == (if found.Some? then found else old(pledge)) &&
        donations == (if donationsOk then NewestFirst(Filter(store.donations, DonatedBy(user.value.id))) else old(donations)) &&
        !fetchLoading
      ensures user.Some? && pledgeOk && UserLookup(store.pledges, user.value.id).Some? ==>
        pledge.value in store.pledges && pledge.value.userId == user.value.id &&
        |Filter(store.pledges, OwnedBy(user.value.id))| == 1
      ensures user.Some? && donationsOk ==>
        NewestFirstOrder(donations) && multiset(donations) == multiset(Filter(store.donations, DonatedBy(user.value.id))) &&
        forall d :: d in donations ==> d in store.donations && d.userId == Some(user.value.id)
    {
      if user.None? {
        return;
      }
      var uid := user.value.id;
      var found := store.FindUserPledge(uid, pledgeOk);
      if found.Some? {
        pledge := found;
      }
      var rows := store.ListDonations(uid, donationsOk);
      if rows.Some? {
        donations := rows.value;
        forall d | d in donations ensures d in store.donations && d.userId == Some(uid) {
          assert d in multiset(donations);
          FilterMembership(store.donations, DonatedBy(uid), d);
        }
      }
      fetchLoading := false;
    }

    /** `handleCancelPledge`: with a pledge shown and the prompt confirmed, asks the store to
        cancel that row; on success the shown pledge becomes cancelled, on failure the page
        reports it (`failed`) and nothing changes. */
    method HandleCancelPledge(store: Store, confirmed: bool, outcome: StoreOutcome) returns (failed: bool)
      requires store.Valid()
      modifies this, store
      ensures store.Valid()
      ensures donations == old(donations) && fetchLoading == old(fetchLoading)
      ensures store.donations == old(store.donations)
      ensures old(pledge).None? || !confirmed ==>
        !failed && pledge == old(pledge) && store.pledges == old(store.pledges)
      ensures old(pledge).Some? && confirmed ==>
        failed == outcome.Failed? &&
        store.pledges == (if outcome.Succeeded? then CancelById(old(store.pledges), old(pledge).value.id) else old(store.pledges)) &&
        pledge == (if outcome.Succeeded? then Some(old(pledge).value.(status := Cancelled)) else old(pledge))
      ensures AtMostOneActive(old(store.pledges)) ==> AtMostOneActive(store.pledges)
      ensures old(pledge).Some? && old(pledge).value.id < |old(store.pledges)| &&
              old(store.pledges)[old(pledge).value.id] == old(pledge).value ==>
        pledge.value.id < |store.pledges| && store.pledges[pledge.value.id] == pledge.value
    {
      failed := false;
      if pledge.None? || !confirmed {
        return;
      }
      var p := pledge.value;
      ghost var before := store.pledges;
      store.CancelPledge(p.id, outcome);
      if AtMostOneActive(before) {
        CancelKeepsAtMostOneActive(before, p.id);
      }
      if outcome.Succeeded? {
        pledge := Some(p.(status := Cancelled));
      } else {
        failed := true;
      }
    }
  }

  /** After a confirmed, successful cancel the card offers reactivation and the badge reads
      `CANCELLED`. */
  lemma CancelledCard(p: Pledge)
    ensures Actions(Some(p.(status := Cancelled))) == Reactivate
    ensures Badge(Some(p.(status := Cancelled))) == "CANCELLED"
  {
    assert ToUpper("cancelled") == "CANCELLED";
  }
}
