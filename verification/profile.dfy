/** The local user's profile and its partial-update action, whose nested
    `social` record is merged key by key rather than replaced. */
module ProfileStore {
  import opened Wrappers
  import opened Social

  datatype Profile = Profile(
    name: string,
    email: string,
    phone: string,
    avatar: string,
    business: string,
    website: Option<string>,
    social: Option<Links>)

  /** `Partial<Profile>`: `None` means the key is absent. For the optional
      `website`, `Some(None)` is a key present with value `undefined`. A
      present `social` that is `undefined` behaves as an absent one, so it is
      not distinguished. */
  datatype ProfileUpdate = ProfileUpdate(
    name: Option<string>,
    email: Option<string>,
    phone: Option<string>,
    avatar: Option<string>,
    business: Option<string>,
    website: Option<Option<string>>,
    social: Option<Links>)

  const INITIAL_PROFILE: Profile := Profile(
    "Andi",
    "andi@example.com",
    "",
    "https://images.unsplash.com/photo-1494790108377-be9c29b29330?w=400&q=80",
    "Andi's Referral Network",
    Some(""),
    Some(map[LinkedIn := "", Facebook := "", Instagram := ""]))

  /** `{ ...prev, ...(upd || {}) }`: an absent record reads as empty and the
      update's keys win. */
  function MergeSocial(prev: Option<Links>, upd: Option<Links>): (r: Links)
    ensures forall k :: k in r <==> (prev.Some? && k in prev.value) || (upd.Some? && k in upd.value)
    ensures forall k :: upd.Some? && k in upd.value ==> r[k] == upd.value[k]
    ensures forall k :: prev.Some? && k in prev.value && !(upd.Some? && k in upd.value) ==> r[k] == prev.value[k]
    ensures upd.None? ==> r == prev.GetOr(map[])
  {
    var r := prev.GetOr(map[]) + upd.GetOr(map[]);
    assert upd.None? ==> r == prev.GetOr(map[]);
    r
  }

  /** Applies a partial update. The result always has a `social` record,
      even when neither the profile nor the update had one. */
  function UpdateProfile(p: Profile, u: ProfileUpdate): (r: Profile)
    ensures r.name == u.name.GetOr(p.name) && r.email == u.email.GetOr(p.email)
    ensures r.phone == u.phone.GetOr(p.phone) && r.avatar == u.avatar.GetOr(p.avatar)
    ensures r.business == u.business.GetOr(p.business) && r.website == u.website.GetOr(p.website)
    ensures r.social.Some?
    ensures forall k :: u.social.Some? && k in u.social.value ==> k in r.social.value && r.social.value[k] == u.social.value[k]
    ensures forall k :: p.social.Some? && k in p.social.value && !(u.social.Some? && k in u.social.value) ==>
      k in r.social.value && r.social.value[k] == p.social.value[k]
    ensures forall k :: k in r.social.value ==> (p.social.Some? && k in p.social.value) || (u.social.Some? && k in u.social.value)
    ensures u.social.None? && p.social.Some? ==> r.social == p.social
  {
    Profile(
      u.name.GetOr(p.name),
      u.email.GetOr(p.email),
      u.phone.GetOr(p.phone),
      u.avatar.GetOr(p.avatar),
      u.business.GetOr(p.business),
      u.website.GetOr(p.website),
      Some(MergeSocial(p.social, u.social)))
  }

  /** The update equivalent to applying `a` and then `b`. */
  function Then(a: ProfileUpdate, b: ProfileUpdate): ProfileUpdate {
    ProfileUpdate(
      if b.name.Some? then b.name else a.name,
      if b.email.Some? then b.email else a.email,
      if b.phone.Some? then b.phone else a.phone,
      if b.avatar.Some? then b.avatar else a.avatar,
      if b.business.Some? then b.business else a.business,
      if b.website.Some? then b.website else a.website,
      if a.social.None? && b.social.None? then None
      else Some(a.social.GetOr(map[]) + b.social.GetOr(map[])))
  }

  /** Every field of a profile, as an update (`updateProfile({ ...profile })`). */
  function AsUpdate(p: Profile): ProfileUpdate {
    ProfileUpdate(Some(p.name), Some(p.email), Some(p.phone), Some(p.avatar), Some(p.business),
      Some(p.website), p.social)
  }

  /** Two successive updates are one combined update. */
  lemma UpdateProfileThen(p: Profile, a: ProfileUpdate, b: ProfileUpdate)
    ensures UpdateProfile(UpdateProfile(p, a), b) == UpdateProfile(p, Then(a, b))
  {
    var lhs := UpdateProfile(UpdateProfile(p, a), b).social.value;
    var rhs := UpdateProfile(p, Then(a, b)).social.value;
    assert lhs == rhs;
  }

  /** Applying the same update twice is applying it once. */
  lemma UpdateProfileIdempotent(p: Profile, u: ProfileUpdate)
    ensures UpdateProfile(UpdateProfile(p, u), u) == UpdateProfile(p, u)
  {
    UpdateProfileThen(p, u, u);
    var once := UpdateProfile(p, u).social.value;
    var twice := UpdateProfile(p, Then(u, u)).social.value;
    assert once == twice;
  }

  /** Re-applying a profile's own fields leaves it unchanged, provided it has
      a `social` record (otherwise one is created, empty). */
  lemma UpdateWithSelf(p: Profile)
    ensures p.social.Some? ==> UpdateProfile(p, AsUpdate(p)) == p
    ensures p.social.None? ==> UpdateProfile(p, AsUpdate(p)) == p.(social := Some(map[]))
  {
    if p.social.Some? {
      var links := p.social.value;
      assert MergeSocial(p.social, p.social) == links + links == links;
    }
  }
}
