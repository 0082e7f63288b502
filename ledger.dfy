/**
 * The two tables the donor pages write, `pledges` and `donations`, kept in memory: the
 * queries the pages run against them (`.single()` lookups, the newest-first donation
 * list), the row updates they make, and the rules those updates keep — at most one
 * active pledge per user, and donations only ever appended.
 */
module Ledger {
  import opened Wrappers
  import opened Records
  import opened Seqs
  import opened DonationRules

  /** The store numbers rows as it inserts them and never deletes one, so a row's id is its
      position in its table. */
  ghost predicate SerialPledgeIds(ps: seq<Pledge>)
  {
    forall k :: 0 <= k < |ps| ==> ps[k].id == k
  }

  ghost predicate SerialDonationIds(ds: seq<Donation>)
  {
    forall k :: 0 <= k < |ds| ==> ds[k].id == k
  }

  /** `.eq('user_id', uid).eq('status', 'active')`. */
  function ActiveOf(uid: UserId): Pledge -> bool
  {
    (p: Pledge) => p.userId == uid && p.status == Active
  }

  /** `.eq('user_id', uid)` on pledges. */
  function OwnedBy(uid: UserId): Pledge -> bool
  {
    (p: Pledge) => p.userId == uid
  }

  /** `.eq('user_id', uid)` on donations. */
  function DonatedBy(uid: UserId): Donation -> bool
  {
    (d: Donation) => d.userId == Some(uid)
  }

  /** `.single()`: the matching row when exactly one row matches; no data otherwise. */
  function Single<T>(rows: seq<T>, p: T -> bool): (r: Option<T>)
    ensures r.Some? <==> |Filter(rows, p)| == 1
    ensures r.Some? ==> r.value in rows && p(r.value)
  {
    var m := Filter(rows, p);
    if |m| == 1 then (assert m[0] in m; Some(m[0])) else None
  }

  /** The donation page's lookup of the user's active pledge. */
  function ActiveLookup(ps: seq<Pledge>, uid: UserId): Option<Pledge>
  {
    Single(ps, ActiveOf(uid))
  }

  /** The dashboard's lookup of the user's pledge, whatever its status. */
  function UserLookup(ps: seq<Pledge>, uid: UserId): Option<Pledge>
  {
    Single(ps, OwnedBy(uid))
  }

  /** How many active pledges the user has. */
  function ActiveCount(ps: seq<Pledge>, uid: UserId): nat
  {
    |Filter(ps, ActiveOf(uid))|
  }

  /** No user has two active pledges (the table itself does not enforce this). */
  ghost predicate AtMostOneActive(ps: seq<Pledge>)
  {
    forall uid :: ActiveCount(ps, uid) <= 1
  }

  /** `.update({amount, tier_name}).eq('id', id)`. */
  function UpdateAmountTier(ps: seq<Pledge>, id: nat, amount: int, tierName: string): (r: seq<Pledge>)
    ensures |r| == |ps|
  {
    seq(|ps|, k requires 0 <= k < |ps| =>
      if ps[k].id == id then ps[k].(amount := amount, tierName := tierName) else ps[k])
  }

  /** `.update({status: 'cancelled'}).eq('id', id)`. */
  function CancelById(ps: seq<Pledge>, id: nat): (r: seq<Pledge>)
    ensures |r| == |ps|
  {
    seq(|ps|, k requires 0 <= k < |ps| => if ps[k].id == id then ps[k].(status := Cancelled) else ps[k])
  }

  /** The row a first monthly pledge inserts; the store gives it the next id. */
  function NewActivePledge(ps: seq<Pledge>, uid: UserId, amount: int, nextPaymentDate: Timestamp): Pledge
  {
    Pledge(|ps|, uid, amount, TierLabel(amount), Active, nextPaymentDate)
  }

  /** The pledges table after a monthly submission whose lookup returned `found`: a found
      pledge is updated if the user confirmed, and otherwise a new active pledge is inserted. */
  function PledgesAfterMonthly(ps: seq<Pledge>, uid: UserId, amount: int, found: Option<Pledge>,
                               confirmed: bool, nextPaymentDate: Timestamp): seq<Pledge>
  {
    match found
    case Some(p) => if confirmed then UpdateAmountTier(ps, p.id, amount, TierLabel(amount)) else ps
    case None => ps + [NewActivePledge(ps, uid, amount, nextPaymentDate)]
  }

  /** The pledges table after a successful monthly submission by `uid`. */
  function Upsert(ps: seq<Pledge>, uid: UserId, amount: int, confirmed: bool, nextPaymentDate: Timestamp): seq<Pledge>
  {
    PledgesAfterMonthly(ps, uid, amount, ActiveLookup(ps, uid), confirmed, nextPaymentDate)
  }

  /** The lookup returns a row exactly when the user has one active pledge, and then it is
      that row, found at the position its id names. */
  lemma ActiveLookupSpec(ps: seq<Pledge>, uid: UserId)
    requires SerialPledgeIds(ps)
    ensures ActiveLookup(ps, uid).Some? <==> ActiveCount(ps, uid) == 1
    ensures ActiveLookup(ps, uid).Some? ==>
      var p := ActiveLookup(ps, uid).value;
      p.id < |ps| && ps[p.id] == p && p.userId == uid && p.status == Active
  {
    var r := ActiveLookup(ps, uid);
    if r.Some? {
      var k :| 0 <= k < |ps| && ps[k] == r.value;
    }
  }

  /** Confirming an update to the found pledge changes only that row's amount and tier name:
      its user, status and next payment date stay, and every other row stays. */
  lemma UpdateChangesOnlyAmountAndTier(ps: seq<Pledge>, uid: UserId, amount: int, nextPaymentDate: Timestamp)
    requires SerialPledgeIds(ps)
    requires ActiveLookup(ps, uid).Some?
    ensures var p := ActiveLookup(ps, uid).value;
      var qs := Upsert(ps, uid, amount, true, nextPaymentDate);
      |qs| == |ps| && p.id < |ps| &&
      qs[p.id] == ps[p.id].(amount := amount, tierName := TierLabel(amount)) &&
      qs[p.id].status == Active && qs[p.id].userId == uid &&
      qs[p.id].nextPaymentDate == ps[p.id].nextPaymentDate &&
      forall k :: 0 <= k < |ps| && k != p.id ==> qs[k] == ps[k]
  {
    ActiveLookupSpec(ps, uid);
  }

  /** Declining the update prompt leaves the table as it was. */
  lemma DeclinedUpdateChangesNothing(ps: seq<Pledge>, uid: UserId, amount: int, nextPaymentDate: Timestamp)
    requires ActiveLookup(ps, uid).Some?
    ensures Upsert(ps, uid, amount, false, nextPaymentDate) == ps
  {
  }

  /** Without a single active pledge, exactly one row is added: the user's, active, with the
      amount's tier label, the given next payment date and a fresh id. */
  lemma InsertWhenNoActivePledge(ps: seq<Pledge>, uid: UserId, amount: int, confirmed: bool, nextPaymentDate: Timestamp)
    requires SerialPledgeIds(ps)
    requires ActiveCount(ps, uid) != 1
    ensures var qs := Upsert(ps, uid, amount, confirmed, nextPaymentDate);
      |qs| == |ps| + 1 && qs[..|ps|] == ps &&
      qs[|ps|] == Pledge(|ps|, uid, amount, TierLabel(amount), Active, nextPaymentDate) &&
      SerialPledgeIds(qs)
  {
    ActiveLookupSpec(ps, uid);
    var qs := Upsert(ps, uid, amount, confirmed, nextPaymentDate);
    assert qs == ps + [NewActivePledge(ps, uid, amount, nextPaymentDate)];
    assert qs[..|ps|] == ps;
  }

  /** An update of amount and tier leaves every user's count of active pledges as it was. */
  lemma UpdateKeepsActiveCounts(ps: seq<Pledge>, id: nat, amount: int, tierName: string, uid: UserId)
    ensures ActiveCount(UpdateAmountTier(ps, id, amount, tierName), uid) == ActiveCount(ps, uid)
  {
    var qs := UpdateAmountTier(ps, id, amount, tierName);
    FilterLengthPointwise(ps, qs, ActiveOf(uid), ActiveOf(uid));
    FilterLengthPointwise(qs, ps, ActiveOf(uid), ActiveOf(uid));
  }

  /** Appending a row adds one to its owner's active count if it is active, and nothing else. */
  lemma AppendActiveCount(ps: seq<Pledge>, row: Pledge, uid: UserId)
    ensures ActiveCount(ps + [row], uid) == ActiveCount(ps, uid) + (if ActiveOf(uid)(row) then 1 else 0)
  {
    FilterAppend(ps, [row], ActiveOf(uid));
    assert Filter([row], ActiveOf(uid)) == (if ActiveOf(uid)(row) then [row] else []) + Filter([], ActiveOf(uid));
  }

  /** A user with at most one active pledge before a monthly submission — whatever the
      prompt's answer — has at most one after it, and so has every other user. */
  lemma MonthlyKeepsAtMostOneActive(ps: seq<Pledge>, uid: UserId, amount: int, confirmed: bool, nextPaymentDate: Timestamp)
    requires AtMostOneActive(ps)
    ensures AtMostOneActive(Upsert(ps, uid, amount, confirmed, nextPaymentDate))
  {
    var qs := Upsert(ps, uid, amount, confirmed, nextPaymentDate);
    match ActiveLookup(ps, uid)
    case Some(p) =>
      forall u ensures ActiveCount(qs, u) <= 1 {
        assert ActiveCount(ps, u) <= 1;
        if confirmed {
          UpdateKeepsActiveCounts(ps, p.id, amount, TierLabel(amount), u);
        }
      }
    case None =>
      assert ActiveCount(ps, uid) == 0 by {
        assert ActiveCount(ps, uid) <= 1;
      }
      forall u ensures ActiveCount(qs, u) <= 1 {
        assert ActiveCount(ps, u) <= 1;
        AppendActiveCount(ps, NewActivePledge(ps, uid, amount, nextPaymentDate), u);
      }
  }

  /** When the lookup request itself fails, the page takes the insert path, and a user who
      already had an active pledge ends up with two, whatever the table and the answer to the
      update prompt. */
  lemma FailedLookupCanDuplicate(ps: seq<Pledge>, uid: UserId, amount: int, confirmed: bool, nextPaymentDate: Timestamp)
    requires ActiveCount(ps, uid) == 1
    ensures ActiveCount(PledgesAfterMonthly(ps, uid, amount, None, confirmed, nextPaymentDate), uid) == 2
  {
    AppendActiveCount(ps, NewActivePledge(ps, uid, amount, nextPaymentDate), uid);
  }

  /** A user none of whose rows is active has no active pledge. */
  lemma {:induction false} NoActiveRows(ps: seq<Pledge>, uid: UserId)
    requires forall k :: 0 <= k < |ps| && ps[k].userId == uid ==> ps[k].status != Active
    ensures Filter(ps, ActiveOf(uid)) == []
  {
    if ps != [] {
      NoActiveRows(ps[1..], uid);
    }
  }

  /** Pledging again after cancelling adds a new active row and keeps the cancelled rows: the
      user then owns one more pledge row than before. */
  lemma ReactivationAddsRow(ps: seq<Pledge>, uid: UserId, amount: int, nextPaymentDate: Timestamp)
    requires forall k :: 0 <= k < |ps| && ps[k].userId == uid ==> ps[k].status != Active
    ensures Upsert(ps, uid, amount, true, nextPaymentDate) == ps + [NewActivePledge(ps, uid, amount, nextPaymentDate)]
    ensures |Filter(Upsert(ps, uid, amount, true, nextPaymentDate), OwnedBy(uid))| == |Filter(ps, OwnedBy(uid))| + 1
  {
    NoActiveRows(ps, uid);
    var row := NewActivePledge(ps, uid, amount, nextPaymentDate);
    FilterAppend(ps, [row], OwnedBy(uid));
    assert Filter([row], OwnedBy(uid)) == [row] + Filter([], OwnedBy(uid));
  }

  /** Two monthly submissions in a row by a user without an active pledge, first of 5000 and
      then of 25000 with the update confirmed, leave one new row: amount 25000, "Queen Plan",
      and the next payment date set by the first submission. */
  lemma SeedThenQueen(ps: seq<Pledge>, uid: UserId, confirmed: bool, firstDate: Timestamp, secondDate: Timestamp)
    requires SerialPledgeIds(ps)
    requires ActiveCount(ps, uid) == 0
    ensures var once := Upsert(ps, uid, 5000, confirmed, firstDate);
      Upsert(once, uid, 25000, true, secondDate) == ps + [Pledge(|ps|, uid, 25000, "Queen Plan", Active, firstDate)]
  {
    InsertWhenNoActivePledge(ps, uid, 5000, confirmed, firstDate);
    var row := NewActivePledge(ps, uid, 5000, firstDate);
    var once := Upsert(ps, uid, 5000, confirmed, firstDate);
    assert once == ps + [row];
    AppendActiveCount(ps, row, uid);
    ActiveLookupSpec(once, uid);
    assert ActiveLookup(once, uid) == Some(row) by {
      var p := ActiveLookup(once, uid).value;
      FilterMembership(ps, ActiveOf(uid), once[p.id]);
    }
    TierLabelTable(25000);
    var twice := Upsert(once, uid, 25000, true, secondDate);
    assert twice == UpdateAmountTier(once, |ps|, 25000, "Queen Plan");
    assert twice == ps + [Pledge(|ps|, uid, 25000, "Queen Plan", Active, firstDate)];
  }

  /** Cancelling sets the status of the row with that id and changes nothing else. */
  lemma CancelChangesOnlyStatus(ps: seq<Pledge>, id: nat)
    requires SerialPledgeIds(ps)
    requires id < |ps|
    ensures var qs := CancelById(ps, id);
      qs[id] == ps[id].(status := Cancelled) &&
      forall k :: 0 <= k < |ps| && k != id ==> qs[k] == ps[k]
  {
  }

  /** Cancelling twice is cancelling once. */
  lemma CancelIdempotent(ps: seq<Pledge>, id: nat)
    ensures CancelById(CancelById(ps, id), id) == CancelById(ps, id)
  {
  }

  /** Cancelling never adds an active pledge, so it keeps the one-active-pledge rule. */
  lemma CancelKeepsAtMostOneActive(ps: seq<Pledge>, id: nat)
    requires AtMostOneActive(ps)
    ensures AtMostOneActive(CancelById(ps, id))
  {
    var qs := CancelById(ps, id);
    forall u ensures ActiveCount(qs, u) <= 1 {
      assert ActiveCount(ps, u) <= 1;
      FilterLengthPointwise(qs, ps, ActiveOf(u), ActiveOf(u));
    }
  }

  /** `.order('created_at', {ascending: false})`: newer rows come first. */
  ghost predicate NewestFirstOrder(ds: seq<Donation>)
  {
    forall i, j :: 0 <= i < j < |ds| ==> ds[i].createdAt >= ds[j].createdAt
  }

  /** Puts `d` in place in a newest-first list. */
  function InsertByDate(d: Donation, ds: seq<Donation>): seq<Donation>
  {
    if ds == [] then [d]
    else if d.createdAt >= ds[0].createdAt then [d] + ds
    else [ds[0]] + InsertByDate(d, ds[1..])
  }

  /** The rows of `ds` ordered newest first (ties in their stored order). */
  function NewestFirst(ds: seq<Donation>): seq<Donation>
  {
    if ds == [] then [] else InsertByDate(ds[0], NewestFirst(ds[1..]))
  }

  /** Inserting adds exactly `d` to the rows. */
  lemma {:induction false} InsertByDatePermutes(d: Donation, ds: seq<Donation>)
    ensures multiset(InsertByDate(d, ds)) == multiset(ds) + multiset{d}
  {
    if ds != [] {
      assert ds == [ds[0]] + ds[1..];
      if d.createdAt < ds[0].createdAt {
        InsertByDatePermutes(d, ds[1..]);
      }
    }
  }

  /** A row no older than any row of a newest-first list can go in front of it. */
  lemma PrependNewest(x: Donation, s: seq<Donation>)
    requires NewestFirstOrder(s)
    requires forall j :: 0 <= j < |s| ==> x.createdAt >= s[j].createdAt
    ensures NewestFirstOrder([x] + s)
  {
    var r := [x] + s;
    forall i, j | 0 <= i < j < |r| ensures r[i].createdAt >= r[j].createdAt {
      assert r[j] == s[j - 1];
      if i > 0 {
        assert r[i] == s[i - 1];
      }
    }
  }

  /** Inserting into a newest-first list keeps it newest first. */
  lemma {:induction false} InsertByDateSorted(d: Donation, ds: seq<Donation>)
    requires NewestFirstOrder(ds)
    ensures NewestFirstOrder(InsertByDate(d, ds))
  {
    if ds == [] {
    } else if d.createdAt >= ds[0].createdAt {
      PrependNewest(d, ds);
    } else {
      var rest := InsertByDate(d, ds[1..]);
      assert NewestFirstOrder(ds[1..]) by {
        forall i, j | 0 <= i < j < |ds[1..]| ensures ds[1..][i].createdAt >= ds[1..][j].createdAt {
          assert ds[1..][i] == ds[i + 1] && ds[1..][j] == ds[j + 1];
        }
      }
      InsertByDateSorted(d, ds[1..]);
      InsertByDatePermutes(d, ds[1..]);
      forall j | 0 <= j < |rest| ensures ds[0].createdAt >= rest[j].createdAt {
        var x := rest[j];
        assert x in multiset(rest);
        if x != d {
          assert x in multiset(ds[1..]);
          var k :| 0 <= k < |ds[1..]| && ds[1..][k] == x;
          assert ds[k + 1] == x;
        }
      }
      PrependNewest(ds[0], rest);
    }
  }

  /** The list is newest first and holds exactly the rows it was given. */
  lemma {:induction false} NewestFirstSpec(ds: seq<Donation>)
    ensures NewestFirstOrder(NewestFirst(ds))
    ensures multiset(NewestFirst(ds)) == multiset(ds)
  {
    if ds != [] {
      NewestFirstSpec(ds[1..]);
      InsertByDateSorted(ds[0], NewestFirst(ds[1..]));
      InsertByDatePermutes(ds[0], NewestFirst(ds[1..]));
      assert ds == [ds[0]] + ds[1..];
    }
  }

  /** The donation a one-time gift records. */
  function GiftRow(ds: seq<Donation>, userId: Option<UserId>, amount: int, createdAt: Timestamp,
                   referenceId: string, isAnonymous: bool, firstName: string): Donation
  {
    Donation(|ds|, userId, amount, createdAt, "successful", referenceId, isAnonymous, "Donation by " + firstName)
  }

  /** The hosted store's two donor tables. It assigns ids itself; a call reported as failed
      writes nothing. */
  class Store {
    var pledges: seq<Pledge>
    var donations: seq<Donation>

    ghost predicate Valid()
      reads this
    {
      SerialPledgeIds(pledges) && SerialDonationIds(donations)
    }

    constructor ()
      ensures Valid() && pledges == [] && donations == []
    {
      pledges := [];
      donations := [];
    }

    /** The donation page's active-pledge query; a failed request yields no data. */
    method FindActivePledge(uid: UserId, ok: bool) returns (found: Option<Pledge>)
      ensures found == if ok then ActiveLookup(pledges, uid) else None
      ensures found.Some? ==> ok && found.value in pledges && found.value.userId == uid && found.value.status == Active
      ensures found.Some? <==> ok && ActiveCount(pledges, uid) == 1
    {
      found := if ok then ActiveLookup(pledges, uid) else None;
    }

    /** The dashboard's pledge query; a failed request yields no data. */
    method FindUserPledge(uid: UserId, ok: bool) returns (found: Option<Pledge>)
      ensures found == if ok then UserLookup(pledges, uid) else None
      ensures found.Some? ==> ok && found.value in pledges && found.value.userId == uid
      ensures found.Some? <==> ok && |Filter(pledges, OwnedBy(uid))| == 1
    {
      found := if ok then UserLookup(pledges, uid) else None;
    }

    /** The dashboard's donation query: the user's donations, newest first. */
    method ListDonations(uid: UserId, ok: bool) returns (rows: Option<seq<Donation>>)
      ensures rows == if ok then Some(NewestFirst(Filter(donations, DonatedBy(uid)))) else None
      ensures rows.Some? ==> NewestFirstOrder(rows.value) && multiset(rows.value) == multiset(Filter(donations, DonatedBy(uid)))
    {
      rows := if ok then Some(NewestFirst(Filter(donations, DonatedBy(uid)))) else None;
      NewestFirstSpec(Filter(donations, DonatedBy(uid)));
    }

    method UpdatePledgeAmount(id: nat, amount: int, tierName: string, outcome: StoreOutcome)
      requires Valid()
      modifies this
      ensures Valid()
      ensures pledges == if outcome.Succeeded? then UpdateAmountTier(old(pledges), id, amount, tierName) else old(pledges)
      ensures donations == old(donations)
    {
      if outcome.Succeeded? {
        pledges := UpdateAmountTier(pledges, id, amount, tierName);
      }
    }

    method InsertActivePledge(uid: UserId, amount: int, nextPaymentDate: Timestamp, outcome: StoreOutcome)
      requires Valid()
      modifies this
      ensures Valid()
      ensures pledges == if outcome.Succeeded? then old(pledges) + [NewActivePledge(old(pledges), uid, amount, nextPaymentDate)] else old(pledges)
      ensures donations == old(donations)
    {
      if outcome.Succeeded? {
        pledges := pledges + [NewActivePledge(pledges, uid, amount, nextPaymentDate)];
      }
    }

    method CancelPledge(id: nat, outcome: StoreOutcome)
      requires Valid()
      modifies this
      ensures Valid()
      ensures pledges == if outcome.Succeeded? then CancelById(old(pledges), id) else old(pledges)
      ensures donations == old(donations)
    {
      if outcome.Succeeded? {
        pledges := CancelById(pledges, id);
      }
    }

    method InsertDonation(userId: Option<UserId>, amount: int, createdAt: Timestamp, referenceId: string,
                          isAnonymous: bool, firstName: string, outcome: StoreOutcome)
      requires Valid()
      modifies this
      ensures Valid()
      ensures donations == if outcome.Succeeded? then old(donations) + [GiftRow(old(donations), userId, amount, createdAt, referenceId, isAnonymous, firstName)] else old(donations)
      ensures pledges == old(pledges)
    {
      if outcome.Succeeded? {
        donations := donations + [GiftRow(donations, userId, amount, createdAt, referenceId, isAnonymous, firstName)];
      }
    }
  }
}
