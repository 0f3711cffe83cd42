/** Access predicates over the profile, and the boolean results of the
    redirect guards built on them. The profile is passed in rather than read
    from the profile store; the navigation a guard triggers is not modelled. */
module Auth {
  import opened Wrappers
  import opened Social
  import opened ProfileStore

  /** The e-mail address that marks the signed-out demo user. */
  const SIGNED_OUT_EMAIL: string := "pat@example.com"

  /** The business name that marks a BNI connection. */
  const BNI_BUSINESS: string := "BNI Member Business"

  predicate IsAuthenticated(p: Profile) {
    p.email != SIGNED_OUT_EMAIL
  }

  predicate IsConnectedToBNI(p: Profile) {
    IsAuthenticated(p) && p.business == BNI_BUSINESS
  }

  /** A present Facebook key counts, even when its link is empty. */
  predicate IsConnectedToFacebook(p: Profile) {
    IsAuthenticated(p) && p.social.Some? && Facebook in p.social.value
  }

  /** Whether the guard redirects (and reports so). */
  function RedirectIfNotAuthenticated(p: Profile): (redirected: bool)
    ensures redirected <==> p.email == "pat@example.com"
  {
    if !IsAuthenticated(p) then true else false
  }

  function RedirectIfNotConnectedToBNI(p: Profile): (redirected: bool)
    ensures redirected <==> p.email == "pat@example.com" || p.business != "BNI Member Business"
    ensures RedirectIfNotAuthenticated(p) ==> redirected
  {
    if !IsConnectedToBNI(p) then true else false
  }

  function RedirectIfNotConnectedToFacebook(p: Profile): (redirected: bool)
    ensures redirected <==> p.email == "pat@example.com" || p.social.None? || Facebook !in p.social.value
    ensures RedirectIfNotAuthenticated(p) ==> redirected
  {
    if !IsConnectedToFacebook(p) then true else false
  }

  /** The three access predicates, in terms of the profile's fields. */
  lemma AccessPredicates(p: Profile)
    ensures !IsAuthenticated(p) <==> p.email == "pat@example.com"
    ensures IsConnectedToBNI(p) <==> p.email != "pat@example.com" && p.business == "BNI Member Business"
    ensures IsConnectedToFacebook(p) <==> p.email != "pat@example.com" && p.social.Some? && Facebook in p.social.value
  {
  }

  /** Both connections imply authentication. */
  lemma ConnectionsImplyAuthenticated(p: Profile)
    ensures IsConnectedToBNI(p) ==> IsAuthenticated(p)
    ensures IsConnectedToFacebook(p) ==> IsAuthenticated(p)
  {
  }

  /** The seed profile is signed in and Facebook-connected (its link is
      empty but present) and not BNI-connected. */
  lemma SeedProfileAccess()
    ensures IsAuthenticated(INITIAL_PROFILE)
    ensures IsConnectedToFacebook(INITIAL_PROFILE)
    ensures !IsConnectedToBNI(INITIAL_PROFILE)
    ensures !RedirectIfNotAuthenticated(INITIAL_PROFILE) && !RedirectIfNotConnectedToFacebook(INITIAL_PROFILE)
    ensures RedirectIfNotConnectedToBNI(INITIAL_PROFILE)
  {
  }

  /** The BNI onboarding update (business, website and phone) connects a
      signed-in user to BNI without touching the Facebook connection. */
  lemma BNIOnboardingConnects(p: Profile, website: string, phone: string)
    requires IsAuthenticated(p)
    ensures IsConnectedToBNI(UpdateProfile(p,
      ProfileUpdate(None, None, Some(phone), None, Some(BNI_BUSINESS), Some(Some(website)), None)))
    ensures IsConnectedToFacebook(UpdateProfile(p,
      ProfileUpdate(None, None, Some(phone), None, Some(BNI_BUSINESS), Some(Some(website)), None)))
      == IsConnectedToFacebook(p)
  {
  }

  /** An update never drops a Facebook connection unless it changes the e-mail. */
  lemma UpdateKeepsFacebook(p: Profile, u: ProfileUpdate)
    requires IsConnectedToFacebook(p) && u.email.None?
    ensures IsConnectedToFacebook(UpdateProfile(p, u))
  {
  }
}
