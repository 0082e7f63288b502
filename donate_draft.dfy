/**
 * The earlier donation page (pages/Donate.tsx): the same tiers, handlers and checks as the
 * live page, but a submission that passes them only announces what would be charged; it
 * reads no user and writes nothing.
 */
module DonateDraft {
  import opened Wrappers
  import opened Records
  import opened JsText
  import opened EmailPattern
  import opened DonationRules
  import opened Donate

  /** What the success announcement reports: the frequency, the amount and the first name. */
  datatype Confirmation = Confirmation(frequency: Frequency, amount: int, firstName: string)

  class DraftDonateForm {
    var frequency: Frequency
    var selectedAmount: int
    var customAmount: int  // `Number(customAmount)`; the empty text is 0
    var details: DonorDetails
    var error: Option<string>

    constructor ()
      ensures frequency == Monthly && selectedAmount == 10000 && customAmount == 0
      ensures details == EmptyDetails && error == None
    {
      frequency := Monthly;
      selectedAmount := 10000;
      customAmount := 0;
      details := EmptyDetails;
      error := None;
    }

    method SetFrequency(f: Frequency)
      modifies this`frequency
      ensures frequency == f
    {
      frequency := f;
    }

    /** A tier button: selects its amount and clears the custom field. */
    method HandleAmountSelect(amount: int)
      modifies this`selectedAmount, this`customAmount
      ensures selectedAmount == amount && customAmount == 0
      ensures amount != 0 ==> ResolveAmount(selectedAmount, customAmount) == amount
    {
      selectedAmount := amount;
      customAmount := 0;
    }

    /** Typing in the custom field: takes the value and deselects the tiers. */
    method HandleCustomAmountChange(value: int)
      modifies this`selectedAmount, this`customAmount
      ensures customAmount == value && selectedAmount == 0
      ensures ResolveAmount(selectedAmount, customAmount) == value
    {
      customAmount := value;
      selectedAmount := 0;
    }

    method HandleInputChange(input: FieldInput)
      modifies this`details
      ensures details == WithInput(old(details), input)
    {
      details := WithInput(details, input);
    }

    /** `handleDonation`: clears the error, runs the checks in order, and either shows the
        first failing check's message or yields the announcement. Form fields are untouched. */
    method HandleDonation() returns (confirmation: Option<Confirmation>)
      modifies this`error
      ensures var amount := ResolveAmount(selectedAmount, customAmount);
        var invalid := FirstValidationError(amount, details);
        error == invalid &&
        (confirmation.Some? <==> invalid.None?) &&
        (confirmation.Some? ==> confirmation.value == Confirmation(frequency, amount, details.firstName))
      ensures confirmation.Some? ==>
        confirmation.value.amount > 0 && !IsBlank(details.firstName) && !IsBlank(details.lastName) &&
        HasEmailShape(details.email)
    {
      error := None;
      var amount := ResolveAmount(selectedAmount, customAmount);
      var invalid := FirstValidationError(amount, details);
      ValidationOrder(amount, details);
      if invalid.Some? {
        error := invalid;
        confirmation := None;
        return;
      }
      confirmation := Some(Confirmation(frequency, amount, details.firstName));
    }
  }

  /** The draft accepts a form exactly when the live page's checks pass on it, with the same
      message otherwise: the live page only adds the sign-in requirement for monthly gifts
      and the store writes. */
  lemma DraftAgreesWithLive(frequency: Frequency, amount: int, details: DonorDetails,
                            user: Option<UserProfile>, found: Option<Pledge>, confirmUpdate: bool)
    ensures FirstValidationError(amount, details).None? <==>
      !NextStep(frequency, amount, details, user, found, confirmUpdate).Rejected?
    ensures FirstValidationError(amount, details).Some? ==>
      NextStep(frequency, amount, details, user, found, confirmUpdate) == Rejected(FirstValidationError(amount, details).value)
  {
  }
}
