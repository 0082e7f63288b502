/**
 * The pure rules both donation pages share: the tier table and its label lookup, how the
 * amount is chosen from the tier buttons and the custom field, the donor-details record
 * and its input handler, the ordered validation checks, and the name split that prefills
 * the form from a signed-in user's profile.
 */
module DonationRules {
  import opened Wrappers
  import opened Records
  import opened JsText
  import opened EmailPattern

  /** The three preset tiers, in display order. */
  const Tiers: seq<DonationTier> := [
    DonationTier(5000, "Seed Plan", "Feeds 2 orphans monthly", Red),
    DonationTier(10000, "Hive Plan", "Supports 1 widow + 2 children", Black),
    DonationTier(25000, "Queen Plan", "Transforms an entire family situation", White)
  ]

  /** `tiers.find(t => t.amount === amount)`: the first tier with that amount. */
  function FindTier(tiers: seq<DonationTier>, amount: int): (r: Option<DonationTier>)
    ensures r.Some? ==> r.value in tiers && r.value.amount == amount
    ensures r.None? <==> forall k :: 0 <= k < |tiers| ==> tiers[k].amount != amount
    ensures r.Some? ==> exists k :: 0 <= k < |tiers| && tiers[k] == r.value && forall j :: 0 <= j < k ==> tiers[j].amount != amount
  {
    if tiers == [] then None
    else if tiers[0].amount == amount then Some(tiers[0])
    else FindTier(tiers[1..], amount)
  }

  /** `tiers.find(...)?.label || 'Custom'`: the label stored as a pledge's `tier_name`. */
  function TierLabel(amount: int): string
  {
    match FindTier(Tiers, amount)
    case Some(t) => if t.labelText != "" then t.labelText else "Custom"
    case None => "Custom"
  }

  /** The three preset amounts get their plan names and every other amount is "Custom". */
  lemma TierLabelTable(amount: int)
    ensures amount == 5000 ==> TierLabel(amount) == "Seed Plan"
    ensures amount == 10000 ==> TierLabel(amount) == "Hive Plan"
    ensures amount == 25000 ==> TierLabel(amount) == "Queen Plan"
    ensures amount != 5000 && amount != 10000 && amount != 25000 ==> TierLabel(amount) == "Custom"
  {
    if amount != 5000 && amount != 10000 && amount != 25000 {
      assert forall k :: 0 <= k < |Tiers| ==> Tiers[k].amount != amount;
    }
  }

  /** `selectedAmount || Number(customAmount)`: a non-zero selected tier wins, otherwise the
      custom value. The custom field is taken as already parsed, its empty text being 0. */
  function ResolveAmount(selectedAmount: int, customAmount: int): int
  {
    if selectedAmount != 0 then selectedAmount else customAmount
  }

  /** The donor-details form state. */
  datatype DonorDetails = DonorDetails(firstName: string, lastName: string, email: string, isAnonymous: bool)

  const EmptyDetails := DonorDetails("", "", "", false)

  /** The text inputs of the donor-details form, by their `name` attribute. */
  datatype TextField = FirstName | LastName | EmailField

  /** One change event: a text input reports its value, the anonymity checkbox its `checked`. */
  datatype FieldInput = Text(name: TextField, value: string) | Checkbox(checked: bool)

  /** `{...prev, [name]: type === 'checkbox' ? checked : value}`. */
  function WithInput(d: DonorDetails, input: FieldInput): DonorDetails
  {
    match input
    case Text(FirstName, v) => d.(firstName := v)
    case Text(LastName, v) => d.(lastName := v)
    case Text(EmailField, v) => d.(email := v)
    case Checkbox(c) => d.(isAnonymous := c)
  }

  /** The text of a field. */
  function TextOf(d: DonorDetails, f: TextField): string
  {
    match f
    case FirstName => d.firstName
    case LastName => d.lastName
    case EmailField => d.email
  }

  /** An input event sets the field it names and no other: the checkbox sets only the
      anonymity flag, a text input only its own text. */
  lemma InputChangesOnlyNamedField(d: DonorDetails, input: FieldInput, f: TextField)
    ensures input.Checkbox? ==> WithInput(d, input).isAnonymous == input.checked && TextOf(WithInput(d, input), f) == TextOf(d, f)
    ensures input.Text? ==> WithInput(d, input).isAnonymous == d.isAnonymous
    ensures input.Text? ==> TextOf(WithInput(d, input), f) == if f == input.name then input.value else TextOf(d, f)
  {
  }

  const AmountMessage := "Please select or enter a valid donation amount."
  const NameMessage := "Please provide your full name."
  const EmailMessage := "Please provide a valid email address."

  /** One change event on the live page. For a signed-in user the name and email inputs are
      read-only and send no change event, so only the checkbox can change the details. */
  function EditDetails(d: DonorDetails, input: FieldInput, signedIn: bool): DonorDetails
  {
    if signedIn && input.Text? then d else WithInput(d, input)
  }

  /** A run of change events, oldest first. */
  function EditAll(d: DonorDetails, inputs: seq<FieldInput>, signedIn: bool): DonorDetails
    decreases |inputs|
  {
    if inputs == [] then d else EditAll(EditDetails(d, inputs[0], signedIn), inputs[1..], signedIn)
  }

  /** However a signed-in user types, the names and the email stay as they were; only the
      anonymity flag can change. Signed out, every event is applied as the handler says. */
  lemma {:induction false} SignedInKeepsDetails(d: DonorDetails, inputs: seq<FieldInput>)
    ensures var r := EditAll(d, inputs, true);
      r.firstName == d.firstName && r.lastName == d.lastName && r.email == d.email
    ensures inputs != [] ==> EditAll(d, inputs, false) == EditAll(WithInput(d, inputs[0]), inputs[1..], false)
    decreases |inputs|
  {
    if inputs != [] {
      SignedInKeepsDetails(EditDetails(d, inputs[0], true), inputs[1..]);
    }
  }

  /** The checks of a submission, in order; the first that fails gives its message. */
  function FirstValidationError(amount: int, d: DonorDetails): Option<string>
  {
    if amount <= 0 then Some(AmountMessage)
    else if Trim(d.firstName) == "" || Trim(d.lastName) == "" then Some(NameMessage)
    else if !MatchesEmailPattern(d.email) then Some(EmailMessage)
    else None
  }

  /** Each message is given exactly when every earlier check passed and its own failed;
      a submission passes when the amount is positive, both names have a non-white-space
      character and the email has the accepted shape. */
  lemma ValidationOrder(amount: int, d: DonorDetails)
    ensures FirstValidationError(amount, d) == Some(AmountMessage) <==> amount <= 0
    ensures FirstValidationError(amount, d) == Some(NameMessage) <==>
      amount > 0 && (IsBlank(d.firstName) || IsBlank(d.lastName))
    ensures FirstValidationError(amount, d) == Some(EmailMessage) <==>
      amount > 0 && !IsBlank(d.firstName) && !IsBlank(d.lastName) && !HasEmailShape(d.email)
    ensures FirstValidationError(amount, d) == None <==>
      amount > 0 && !IsBlank(d.firstName) && !IsBlank(d.lastName) && HasEmailShape(d.email)
  {
    TrimEmptyIffBlank(d.firstName);
    TrimEmptyIffBlank(d.lastName);
    EmailPatternIffShape(d.email);
  }

  /** `s.split(' ')`: the pieces between the spaces of `s`. */
  function SplitOnSpace(s: string): (parts: seq<string>)
    ensures |parts| >= 1
  {
    if s == [] then [""]
    else
      var rest := SplitOnSpace(s[1..]);
      if s[0] == ' ' then [""] + rest else [[s[0]] + rest[0]] + rest[1..]
  }

  /** `parts.join(' ')`. */
  function JoinWithSpace(parts: seq<string>): string
  {
    if |parts| == 0 then ""
    else if |parts| == 1 then parts[0]
    else parts[0] + " " + JoinWithSpace(parts[1..])
  }

  /** Joining the pieces of a split gives back the string. */
  lemma {:induction false} JoinSplit(s: string)
    ensures JoinWithSpace(SplitOnSpace(s)) == s
  {
    if s != [] {
      var rest := SplitOnSpace(s[1..]);
      JoinSplit(s[1..]);
      if s[0] == ' ' {
        assert ([""] + rest)[1..] == rest;
      } else {
        var parts := [[s[0]] + rest[0]] + rest[1..];
        assert parts[1..] == rest[1..];
        if |rest| > 1 {
          assert JoinWithSpace(rest) == rest[0] + " " + JoinWithSpace(rest[1..]);
        }
      }
    }
  }

  /** A string with a space splits into at least two pieces; one without is its only piece. */
  lemma {:induction false} SplitPieces(s: string)
    ensures ' ' in s ==> |SplitOnSpace(s)| >= 2
    ensures ' ' !in s ==> SplitOnSpace(s) == [s]
  {
    if s != [] {
      SplitPieces(s[1..]);
      assert s == [s[0]] + s[1..];
      assert ' ' in s <==> s[0] == ' ' || ' ' in s[1..];
    }
  }

  /** What the form takes from a signed-in user's profile. */
  datatype Prefill = Prefill(firstName: string, lastName: string, email: string)

  /** `names = full_name?.split(' ') || ['', '']`; the first name is `names[0] || ''`, the last
      name `names.slice(1).join(' ') || ''`, the email `user.email || ''`. */
  function PrefillFrom(user: UserProfile): Prefill
  {
    var names := if user.fullName.Some? then SplitOnSpace(user.fullName.value) else ["", ""];
    Prefill(names[0], JoinWithSpace(names[1..]), if user.email.Some? then user.email.value else "")
  }

  /** With a space in the full name, first name, a space and last name give the full name back;
      with none, the whole name is the first name and the last name is empty. */
  lemma PrefillRoundTrip(user: UserProfile)
    requires user.fullName.Some?
    ensures ' ' in user.fullName.value ==>
      PrefillFrom(user).firstName + " " + PrefillFrom(user).lastName == user.fullName.value
    ensures ' ' !in user.fullName.value ==>
      PrefillFrom(user).firstName == user.fullName.value && PrefillFrom(user).lastName == ""
    ensures ' ' !in PrefillFrom(user).firstName
  {
    var s := user.fullName.value;
    var parts := SplitOnSpace(s);
    SplitPieces(s);
    JoinSplit(s);
    FirstPieceHasNoSpace(s);
    if ' ' in s {
      assert JoinWithSpace(parts) == parts[0] + " " + JoinWithSpace(parts[1..]);
    }
  }

  /** The first piece of a split holds no space. */
  lemma {:induction false} FirstPieceHasNoSpace(s: string)
    ensures ' ' !in SplitOnSpace(s)[0]
  {
    if s != [] {
      FirstPieceHasNoSpace(s[1..]);
    }
  }

  /** Without a profile name both names are empty. */
  lemma PrefillWithoutName(user: UserProfile)
    requires user.fullName.None?
    ensures PrefillFrom(user).firstName == "" && PrefillFrom(user).lastName == ""
  {
  }

  /** A signed-in user whose profile has no name, or a name without a space, is prefilled with
      an empty last name. The read-only inputs never let it be filled in, so every submission
      with a positive amount stops at the name check, whatever the user types. */
  lemma SignedInWithoutLastNameRejected(user: UserProfile, d: DonorDetails, inputs: seq<FieldInput>, amount: int)
    requires user.fullName.Some? ==> ' ' !in user.fullName.value
    requires amount > 0
    ensures var pre := PrefillFrom(user);
      FirstValidationError(amount, EditAll(d.(firstName := pre.firstName, lastName := pre.lastName, email := pre.email), inputs, true))
        == Some(NameMessage)
  {
    var pre := PrefillFrom(user);
    if user.fullName.Some? {
      PrefillRoundTrip(user);
    } else {
      PrefillWithoutName(user);
    }
    assert pre.lastName == "";
    SignedInKeepsDetails(d.(firstName := pre.firstName, lastName := pre.lastName, email := pre.email), inputs);
    TrimEmptyIffBlank("");
  }
}
