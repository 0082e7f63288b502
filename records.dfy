/**
 * The rows and records the site works with: the entities of types.ts and the
 * shapes of the `pledges` and `donations` tables that the pages read and write.
 */
module Records {
  import opened Wrappers

  /** A user id issued by the identity provider. */
  type UserId = string

  /** An instant, as the host's clock reports it. */
  type Timestamp = int

  /** `'active' | 'paused' | 'cancelled'` of a pledge row. */
  datatype PledgeStatus = Active | Paused | Cancelled

  /** The string the store keeps for a pledge status. */
  function StatusText(s: PledgeStatus): string
  {
    match s
    case Active => "active"
    case Paused => "paused"
    case Cancelled => "cancelled"
  }

  /** A row of `pledges`: {id, user_id, amount, tier_name, status, next_payment_date}. */
  datatype Pledge = Pledge(
    id: nat,
    userId: UserId,
    amount: int,
    tierName: string,
    status: PledgeStatus,
    nextPaymentDate: Timestamp)

  /** A row of `donations`; `userId` is `None` for a gift made without signing in. */
  datatype Donation = Donation(
    id: nat,
    userId: Option<UserId>,
    amount: int,
    createdAt: Timestamp,
    status: string,
    referenceId: string,
    isAnonymous: bool,
    message: string)

  /** `UserRole` of types.ts. */
  datatype UserRole = DonorRole | AdminRole

  /** `UserProfile` of types.ts. The pages guard `full_name` and `email` with `?.`
      and `||`, so the model lets them be missing. */
  datatype UserProfile = UserProfile(
    id: UserId,
    fullName: Option<string>,
    email: Option<string>,
    role: UserRole,
    phoneNumber: Option<string>,
    avatarUrl: Option<string>)

  /** `DonationTier.theme` of types.ts. */
  datatype Theme = Red | Black | White

  /** `DonationTier` of types.ts (`label` is a Dafny keyword, hence `labelText`). */
  datatype DonationTier = DonationTier(amount: int, labelText: string, description: string, theme: Theme)

  /** `ImpactStory.category` of types.ts. */
  datatype Category = Orphans | Widows | Community | Education

  /** `ImpactStory` of types.ts. */
  datatype ImpactStory = ImpactStory(
    id: string,
    title: string,
    category: Category,
    imageUrl: string,
    description: string,
    dateDistributed: string)

  /** `AdminDonorView.current_month_status` of types.ts, computed by the store's view. */
  datatype MonthStatus = Paid | Unpaid | NoPledge

  /** A row of the `admin_donor_overview` view (`AdminDonorView` of types.ts). The admin
      page reads `full_name` and `email` through `?.`, so the model lets them be missing. */
  datatype AdminDonorView = AdminDonorView(
    userId: UserId,
    fullName: Option<string>,
    email: Option<string>,
    phoneNumber: string,
    pledgeAmount: int,
    tierName: string,
    pledgeStatus: PledgeStatus,
    lastDonationDate: Option<string>,
    currentMonthStatus: MonthStatus)

  /** What one call to the hosted store reports: it went through, or it failed with a message. */
  datatype StoreOutcome = Succeeded | Failed(message: string)
}
