/**
 * The donation page (src/pages/Donate.tsx): form state, its handlers, and the submission
 * that validates the form and then, for a monthly gift, updates the user's active pledge
 * or inserts a new one, and for a one-time gift appends a donation.
 */
module Donate {
  import opened Wrappers
  import opened Records
  import opened JsText
  import opened EmailPattern
  import opened DonationRules
  import opened Ledger

  /** `'one-time' | 'monthly'`. */
  datatype Frequency = OneTime | Monthly

  /** Where the page sends the user when a submission settles: the sign-in page for a monthly
      gift without a user, the dashboard (after a delay) for a signed-in success. */
  datatype Navigation = Stay | ToAuth | ToDashboard

  const GenericFailure := "An error occurred while processing your request."

  /** `err.message || 'An error occurred while processing your request.'`. */
  function FailureText(message: string): string
  {
    if message != "" then message else GenericFailure
  }

  /** `user?.id || null`: the donor recorded on a one-time gift. */
  function DonorId(user: Option<UserProfile>): Option<UserId>
  {
    if user.Some? && user.value.id != "" then Some(user.value.id) else None
  }

  /** What a submission goes on to do once the amount is resolved and the lookup answered. */
  datatype Step =
    | Rejected(message: string)  // a validation check failed
    | NeedsSignIn                // monthly gift without a signed-in user
    | KeptExisting               // the user declined to update the pledge that was found
    | UpdatePledge(id: nat)      // update the found pledge's amount and tier
    | InsertPledge               // insert a new active pledge
    | RecordGift                 // append a one-time donation
  {
    /** The step writes to the store. */
    predicate Writes()
    {
      UpdatePledge? || InsertPledge? || RecordGift?
    }
  }

  function NextStep(frequency: Frequency, amount: int, details: DonorDetails, user: Option<UserProfile>,
                    found: Option<Pledge>, confirmUpdate: bool): Step
  {
    var invalid := FirstValidationError(amount, details);
    if invalid.Some? then Rejected(invalid.value)
    else if frequency == OneTime then RecordGift
    else if user.None? then NeedsSignIn
    else if found.Some? then (if confirmUpdate then UpdatePledge(found.value.id) else KeptExisting)
    else InsertPledge
  }

  /** The step a submission takes against the pledges table `ps` (empty when the lookup
      request failed, which the page cannot tell from finding nothing). */
  function Submitted(frequency: Frequency, amount: int, details: DonorDetails, user: Option<UserProfile>,
                     ps: seq<Pledge>, confirmUpdate: bool): Step
  {
    var found := if user.Some? then ActiveLookup(ps, user.value.id) else None;
    NextStep(frequency, amount, details, user, found, confirmUpdate)
  }

  /** The store is written only by a submission that passed every check in order: positive
      amount, both names non-blank, an email of the accepted shape, and a signed-in user for
      a monthly gift. A failed check yields its own message. */
  lemma WritesOnlyAfterChecks(frequency: Frequency, amount: int, details: DonorDetails, user: Option<UserProfile>,
                              found: Option<Pledge>, confirmUpdate: bool)
    ensures var step := NextStep(frequency, amount, details, user, found, confirmUpdate);
      (step.UpdatePledge? || step.InsertPledge? || step.RecordGift?) ==>
        amount > 0 && !IsBlank(details.firstName) && !IsBlank(details.lastName) &&
        HasEmailShape(details.email) && (frequency == Monthly ==> user.Some?)
    ensures var step := NextStep(frequency, amount, details, user, found, confirmUpdate);
      step.Rejected? <==> !(amount > 0 && !IsBlank(details.firstName) && !IsBlank(details.lastName) && HasEmailShape(details.email))
    ensures amount <= 0 ==> NextStep(frequency, amount, details, user, found, confirmUpdate) == Rejected(AmountMessage)
  {
    ValidationOrder(amount, details);
    var invalid := FirstValidationError(amount, details);
    var step := NextStep(frequency, amount, details, user, found, confirmUpdate);
    assert step.Rejected? <==> invalid.Some?;
    assert invalid.Some? ==> step == Rejected(invalid.value);
  }

  /** What a monthly submission does once the user is known: with a pledge found, it updates
      it if the user confirmed and keeps it otherwise; without one it inserts a new pledge.
      The lookup's success, the prompt's answer and the store's report are supplied. */
  method SubmitPledge(store: Store, uid: UserId, amount: int, lookupOk: bool, confirmUpdate: bool,
                      outcome: StoreOutcome, nextPaymentDate: Timestamp) returns (step: Step)
    requires store.Valid()
    modifies store
    ensures store.Valid() && store.donations == old(store.donations)
    ensures var found := ActiveLookup(if lookupOk then old(store.pledges) else [], uid);
      step == (if found.Some? then (if confirmUpdate then UpdatePledge(found.value.id) else KeptExisting) else InsertPledge)
    ensures step.UpdatePledge? ==>
      store.pledges == if outcome.Succeeded? then UpdateAmountTier(old(store.pledges), step.id, amount, TierLabel(amount)) else old(store.pledges)
    ensures step.InsertPledge? ==>
      store.pledges == if outcome.Succeeded? then old(store.pledges) + [NewActivePledge(old(store.pledges), uid, amount, nextPaymentDate)] else old(store.pledges)
    ensures step.KeptExisting? ==> store.pledges == old(store.pledges)
    ensures lookupOk && outcome.Succeeded? ==> store.pledges == Upsert(old(store.pledges), uid, amount, confirmUpdate, nextPaymentDate)
    ensures lookupOk && AtMostOneActive(old(store.pledges)) ==> AtMostOneActive(store.pledges)
  {
    var found := store.FindActivePledge(uid, lookupOk);
    assert found == ActiveLookup(if lookupOk then store.pledges else [], uid);
    if found.Some? {
      if !confirmUpdate {
        return KeptExisting;
      }
      step := UpdatePledge(found.value.id);
      ghost var before := store.pledges;
      store.UpdatePledgeAmount(found.value.id, amount, TierLabel(amount), outcome);
      if lookupOk && AtMostOneActive(before) {
        MonthlyKeepsAtMostOneActive(before, uid, amount, confirmUpdate, nextPaymentDate);
      }
    } else {
      step := InsertPledge;
      ghost var before := store.pledges;
      store.InsertActivePledge(uid, amount, nextPaymentDate, outcome);
      if lookupOk && AtMostOneActive(before) {
        MonthlyKeepsAtMostOneActive(before, uid, amount, confirmUpdate, nextPaymentDate);
      }
    }
  }

  class DonateForm {
    var frequency: Frequency
    var selectedAmount: int
    var customAmount: int  // `Number(customAmount)`; the empty text is 0
    var loading: bool
    var success: bool
    var details: DonorDetails
    var error: Option<string>
    var signedIn: bool  // `!!user` at the last render: the name and email inputs are read-only

    constructor ()
      ensures frequency == Monthly && selectedAmount == 10000 && customAmount == 0
      ensures !loading && !success && details == EmptyDetails && error == None && !signedIn
    {
      frequency := Monthly;
      selectedAmount := 10000;
      customAmount := 0;
      loading := false;
      success := false;
      details := EmptyDetails;
      error := None;
      signedIn := false;
    }

    /** The effect that copies a signed-in user's name and email into the form; the same
        render makes those inputs read-only while there is a user. */
    method PrefillFromUser(user: Option<UserProfile>)
      modifies this
      ensures signedIn == user.Some?
      ensures user.Some? ==>
        var pre := PrefillFrom(user.value);
        details == old(details).(firstName := pre.firstName, lastName := pre.lastName, email := pre.email)
      ensures user.None? ==> details == old(details)
      ensures frequency == old(frequency) && selectedAmount == old(selectedAmount) && customAmount == old(customAmount)
      ensures loading == old(loading) && success == old(success) && error == old(error)
    {
      signedIn := user.Some?;
      if user.Some? {
        var pre := PrefillFrom(user.value);
        details := details.(firstName := pre.firstName, lastName := pre.lastName, email := pre.email);
      }
    }

    /** The one-time / monthly toggle. */
    method SetFrequency(f: Frequency)
      modifies this`frequency
      ensures frequency == f
    {
      frequency := f;
    }

    /** A tier button: selects its amount and clears the custom field. */
    method HandleAmountSelect(amount: int)
      modifies this`selectedAmount, this`customAmount
      ensures selectedAmount == amount && customAmount == 0
      ensures amount != 0 ==> ResolveAmount(selectedAmount, customAmount) == amount
    {
      selectedAmount := amount;
      customAmount := 0;
    }

    /** Typing in the custom field: takes the value and deselects the tiers. */
    method HandleCustomAmountChange(value: int)
      modifies this`selectedAmount, this`customAmount
      ensures customAmount == value && selectedAmount == 0
      ensures ResolveAmount(selectedAmount, customAmount) == value
    {
      customAmount := value;
      selectedAmount := 0;
    }

    /** `handleInputChange`, for the events the inputs can send: a read-only name or email
        input sends none, so for a signed-in user a text edit leaves the details as they were. */
    method HandleInputChange(input: FieldInput)
      modifies this`details
      ensures details == EditDetails(old(details), input, signedIn)
      ensures signedIn ==> details.firstName == old(details).firstName && details.lastName == old(details).lastName &&
                           details.email == old(details).email
      ensures !signedIn ==> details == WithInput(old(details), input)
    {
      if signedIn && input.Text? {
        return;
      }
      details := WithInput(details, input);
    }

    /** `handleDonation`. The lookup's success, the answer to the update prompt, the store's
        report on the write, the date one month ahead, the clock and the reference id are
        supplied by the host. */
    method HandleDonation(store: Store, user: Option<UserProfile>, lookupOk: bool, confirmUpdate: bool,
                          outcome: StoreOutcome, nextPaymentDate: Timestamp, now: Timestamp, referenceId: string)
      returns (nav: Navigation, ghost step: Step)
      requires store.Valid()
      modifies this, store
      ensures store.Valid() && !loading
      ensures frequency == old(frequency) && selectedAmount == old(selectedAmount)
      ensures customAmount == old(customAmount) && details == old(details) && signedIn == old(signedIn)
      ensures Submitted(old(frequency), ResolveAmount(old(selectedAmount), old(customAmount)), old(details), user,
                        if lookupOk then old(store.pledges) else [], confirmUpdate) == step
      ensures step.UpdatePledge? ==>
        store.donations == old(store.donations) &&
        store.pledges == (if outcome.Succeeded? then UpdateAmountTier(old(store.pledges), step.id, ResolveAmount(old(selectedAmount), old(customAmount)), TierLabel(ResolveAmount(old(selectedAmount), old(customAmount)))) else old(store.pledges))
      ensures step.InsertPledge? ==>
        store.donations == old(store.donations) && user.Some? &&
        store.pledges == (if outcome.Succeeded? then old(store.pledges) + [NewActivePledge(old(store.pledges), user.value.id, ResolveAmount(old(selectedAmount), old(customAmount)), nextPaymentDate)] else old(store.pledges))
      ensures step.RecordGift? ==>
        store.pledges == old(store.pledges) &&
        store.donations == (if outcome.Succeeded? then old(store.donations) + [GiftRow(old(store.donations), DonorId(user), ResolveAmount(old(selectedAmount), old(customAmount)), now, referenceId, old(details).isAnonymous, old(details).firstName)] else old(store.donations))
      ensures step.Rejected? || step.NeedsSignIn? || step.KeptExisting? ==>
        store.pledges == old(store.pledges) && store.donations == old(store.donations)
      ensures error == (if step.Rejected? then Some(step.message)
                        else if outcome.Failed? && step.Writes() then Some(FailureText(outcome.message))
                        else None)
      ensures success == (old(success) || (outcome.Succeeded? && step.Writes()))
      ensures nav == (if step.NeedsSignIn? then ToAuth else if outcome.Succeeded? && step.Writes() && user.Some? then ToDashboard else Stay)
      ensures
        var amount := ResolveAmount(old(selectedAmount), old(customAmount));
        lookupOk && outcome.Succeeded? && old(frequency) == Monthly && user.Some? &&
        FirstValidationError(amount, old(details)).None? ==>
          store.pledges == Upsert(old(store.pledges), user.value.id, amount, confirmUpdate, nextPaymentDate)
      ensures lookupOk && AtMostOneActive(old(store.pledges)) ==> AtMostOneActive(store.pledges)
    {
      error := None;
      loading := true;
      nav := Stay;
      var amount := ResolveAmount(selectedAmount, customAmount);
      var invalid := FirstValidationError(amount, details);
      if invalid.Some? {
        error := invalid;
        loading := false;
        step := Rejected(invalid.value);
        return;
      }
      if frequency == Monthly {
        if user.None? {
          loading := false;
          nav := ToAuth;
          step := NeedsSignIn;
          return;
        }
        var s := SubmitPledge(store, user.value.id, amount, lookupOk, confirmUpdate, outcome, nextPaymentDate);
        step := s;
        if s.KeptExisting? {
          loading := false;
          return;
        }
      } else {
        step := RecordGift;
        store.InsertDonation(DonorId(user), amount, now, referenceId, details.isAnonymous, details.firstName, outcome);
      }
      if outcome.Succeeded? {
        success := true;
        if user.Some? {
          nav := ToDashboard;
        }
      } else {
        error := Some(FailureText(outcome.message));
      }
      loading := false;
    }
  }
}
