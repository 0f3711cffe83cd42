/** The received-referral ledger: a fixed seed list with lookup and count,
    and no action that changes it. */
module ReceivedReferrals {
  import opened Wrappers
  import opened Seqs

  datatype ReceivedReferral = ReceivedReferral(
    id: string,
    partnerId: string,
    date: string,
    referralOpportunityId: string,
    referralPostId: string)

  const INITIAL_REFERRALS: seq<ReceivedReferral> := [
    ReceivedReferral("1", "2", "2024-03-15", "1", "1"),
    ReceivedReferral("2", "1", "2024-03-14", "2", "2"),
    ReceivedReferral("3", "3", "2024-03-13", "3", "3"),
    ReceivedReferral("4", "5", "2024-03-12", "4", "4")
  ]

  /** The store's only state; no action replaces it. */
  datatype ReferralsState = ReferralsState(referrals: seq<ReceivedReferral>)

  const Initial: ReferralsState := ReferralsState(INITIAL_REFERRALS)

  function ReferralIdIs(id: string): ReceivedReferral -> bool {
    (r: ReceivedReferral) => r.id == id
  }

  /** The first referral carrying `id`, if any. */
  function GetReferralById(s: ReferralsState, id: string): (r: Option<ReceivedReferral>)
    ensures r.None? <==> forall i :: 0 <= i < |s.referrals| ==> s.referrals[i].id != id
    ensures r.Some? ==>
      exists i :: 0 <= i < |s.referrals| && s.referrals[i] == r.value && r.value.id == id &&
        forall j :: 0 <= j < i ==> s.referrals[j].id != id
  {
    FindFirst(s.referrals, ReferralIdIs(id))
  }

  function GetTotalReceived(s: ReferralsState): nat {
    |s.referrals|
  }

  /** Among entries sharing an id, the lookup returns the earliest: if
      entry `i` is the first carrying `id`, it is the one found, whatever
      entries with the same id follow it. */
  lemma {:induction false} LookupPrefersFirst(s: ReferralsState, id: string, i: int)
    requires 0 <= i < |s.referrals| && s.referrals[i].id == id
    requires forall j :: 0 <= j < i ==> s.referrals[j].id != id
    ensures GetReferralById(s, id) == Some(s.referrals[i])
    decreases i
  {
    if i > 0 {
      var t := ReferralsState(s.referrals[1..]);
      LookupPrefersFirst(t, id, i - 1);
    }
  }

  /** The count is the ledger's length: an empty ledger finds nothing, and a
      non-empty one finds its head by the head's id. */
  lemma TotalMatchesLookups(s: ReferralsState, id: string)
    ensures GetTotalReceived(s) == 0 ==> GetReferralById(s, id).None?
    ensures GetTotalReceived(s) > 0 ==> GetReferralById(s, s.referrals[0].id) == Some(s.referrals[0])
    ensures GetReferralById(s, id).Some? ==> GetTotalReceived(s) > 0
  {
  }

  /** The seeded ledger: four entries with ids "1" to "4", each found by its id. */
  lemma SeedLedger()
    ensures GetTotalReceived(Initial) == 4
    ensures GetReferralById(Initial, "2") == Some(ReceivedReferral("2", "1", "2024-03-14", "2", "2"))
    ensures GetReferralById(Initial, "5").None?
  {
  }
}
