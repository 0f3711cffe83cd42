# Andi referral app: store model

A Dafny model of the client-side stores of the Andi referral-tracking demo
app. It covers the partner directory, the post (opportunity) ledger, the
referral statistics computed from the posts, the user profile with its
partial update, the access predicates over the profile, and the read-only
received-referral ledger.

Each store is an immutable state record, and each action is a pure function
from the old state to the new one. Getters are pure functions of the state.
Where the source reads another store's global state (the statistics read the
posts; the access predicates read the profile), the model passes that state
in as an argument.

Files and modules:

- `wrappers.dfy` (`Wrappers`): `Option` for `undefined`, `Result` for an action that rejects.
- `seqs.dfy` (`Seqs`): the array combinators the stores use (`filter`, `find`, and a `map` that rewrites selected elements), with order, counting and lookup lemmas.
- `social.dfy` (`Social`): the `social` links record, as a map from network to link; a missing key means "not provided".
- `partners.dfy` (`Partners`): the partner directory, its cap of 10, its action datatype, and the invariant every action preserves.
- `posts.dfy` (`Posts`): posts and comments, CRUD with partial-merge update, `addComment`, and the draft slot.
- `stats.dfy` (`Stats`): `hasReferral`, referrals given, and open opportunities.
- `profile.dfy` (`ProfileStore`): the profile and `updateProfile` with its key-by-key `social` merge.
- `auth.dfy` (`Auth`): the access predicates and the boolean results of the redirect guards.
- `received_referrals.dfy` (`ReceivedReferrals`): the seeded ledger, its lookup and its count.

`Partial<T>` arguments become records of `Option` fields, where `Some` means
the key is present and overrides. For an optional field (`comments_list`,
`website`), the patch field is `Option<Option<T>>`. There, `Some(None)` is a
key present with value `undefined`, which the object spread copies.

Behaviours of the code worth knowing:

- Post 1 of the seed data has `comments: 8` but a one-element `comments_list` (store/posts.ts:41-51). The counter therefore does not always equal the thread length. The model proves instead that `addComment` preserves the difference between them, and so keeps a consistent post consistent.
- `referralsReceived` is the literal 5 (store/stats.ts:12). It is not derived from the received-referral ledger, which holds 4 entries.
- "Referrals given" is recomputed by scanning the posts on every query (store/stats.ts:13-21). It counts posts, not comments: several referral comments on one post count once.
- When the profile has no `social` record, `updateProfile` still produces one, empty if the update also has none (store/profile.ts:44-47). So "an update without `social` keeps `social` unchanged" holds only when the profile already had a record.

## Model

| member | source | states |
|---|---|---|
| Seqs.Filter | store/partners.ts:149-151 | `filter` keeps exactly the elements satisfying the predicate; it returns the input when every element passes and `[]` when none does |
| Seqs.FindFirst | store/partners.ts:154 | `find` returns none iff no element matches; otherwise it returns a matching element with no match before it |
| Seqs.MapWhere | store/partners.ts:166-172 | the selective `map` keeps the length, rewrites the selected elements and leaves every other element as it was |
| Seqs.FilterConcat | store/posts.ts:101-103 | filtering distributes over concatenation, so the survivors keep their relative order |
| Seqs.FilterPartition | store/stats.ts:13-30 | filtering by a predicate and by its negation splits the list: the two counts sum to its length |
| Partners.SetPartners | store/partners.ts:129-133 | the bulk replace installs the new list iff it has at most 10 entries; otherwise the state is unchanged |
| Partners.AddPartner | store/partners.ts:136-146 | rejects with MaxPartnersReached iff the list already holds `maxPartners`; on success the result is the old list plus the new partner at the end |
| Partners.RemovePartner | store/partners.ts:149-151 | no survivor carries the id, every other entry survives, and it is a no-op when no entry matches |
| Partners.GetPartnerById | store/partners.ts:154 | returns the first entry with the id, or none iff no entry has it |
| Partners.ClearPartners | store/partners.ts:157 | the directory becomes empty and the cap is kept |
| Partners.UpdatePartner | store/partners.ts:166-172 | the length is kept; every entry with `p.id` becomes `p` and all other entries are unchanged |
| Partners.InitialValid | store/partners.ts:23-104 | the five-entry seed is within the cap and has a free slot |
| Partners.StepPreservesValid | store/partners.ts:124-172 | each action (set, add, remove, update, clear) preserves `maxPartners == 10` and the invariant `|partners| <= 10` |
| Partners.RunPreservesValid | store/partners.ts:124-172 | any sequence of actions from a valid directory stays within the cap |
| Partners.ReachableValid | store/partners.ts:23-172 | every state reachable from the five-entry seed by any sequence of actions is within the cap |
| Partners.AddPartnerMatchesSlots | store/partners.ts:139-145 | on a valid directory, add succeeds iff `hasAvailableSlots`; a success uses exactly one more slot, and a failure means all 10 are used |
| Partners.SlotAccounting | store/partners.ts:160-163 | used slots never exceed 10, and a slot is free iff fewer than 10 are used |
| Partners.ClearFreesSlots | store/partners.ts:157-160 | after clearing, no slot is used, a slot is free, and no lookup succeeds |
| Partners.RemovePartnerCount | store/partners.ts:149-151 | survivors plus removed entries make up the old length, and removal from an extended list is removal from each part |
| Partners.RemovePartnerLookup | store/partners.ts:149-154 | after removal the id is not found, and lookups of other ids are unchanged |
| Partners.UpdatePartnerLookup | store/partners.ts:154-172 | after an update, `p.id` looks up to `p` if it existed; a missing id makes the update a no-op; lookups of other ids are unchanged |
| Partners.AddPartnerLookup | store/partners.ts:143-154 | after an add, the new partner is found by its id unless an earlier entry already carries that id |
| Partners.FullRejectsAdd | store/partners.ts:139-141 | a full directory rejects an add and stays unchanged |
| Posts.SetPosts | store/posts.ts:92 | the post list is replaced and the draft is kept |
| Posts.AddPost | store/posts.ts:93-95 | the post is appended after an unchanged prefix |
| Posts.Overlay | store/posts.ts:98 | every field supplied in the patch takes the patch's value (an explicit `undefined` thread included), every absent field keeps the post's value, and an empty patch is the identity |
| Posts.UpdatePost | store/posts.ts:96-100 | length and order are kept; posts with the id are overlaid with the patch and all others are unchanged |
| Posts.RemovePost | store/posts.ts:101-103 | no survivor carries the id, every other post survives, and it is a no-op when no post matches |
| Posts.GetPostById | store/posts.ts:104 | returns the first post with the id, or none iff no post has it |
| Posts.WithComment | store/posts.ts:107-112 | the counter grows by 1 and the thread (empty if absent) gains the comment at its end; the counter-minus-length gap and every other field are unchanged |
| Posts.AddComment | store/posts.ts:105-116 | the length and draft are kept; every matching post gets the comment, other posts are untouched, and an unknown id leaves the state unchanged |
| Posts.SetDraftMessage | store/posts.ts:117 | the draft is set and the posts are unchanged |
| Posts.SeedCounterMismatch | store/posts.ts:41-51 | the first seed post's counter exceeds its thread length by 7 |
| Posts.AddCommentKeepsCounterGap | store/posts.ts:105-116 | every post's `comments - |comments_list|` is preserved, so a consistent post stays consistent |
| Posts.AddCommentLookup | store/posts.ts:104-116 | looking up the commented id yields the post with the comment appended; other ids look up as before |
| Posts.OverlayCompose | store/posts.ts:98 | overlaying `a` and then `b` equals overlaying `a` with `b`'s keys winning |
| Posts.UpdatePostTwice | store/posts.ts:96-100 | two updates of one id equal a single combined update, provided the first patch does not rename the matched posts |
| Posts.UpdatePostIdempotent | store/posts.ts:96-100 | applying the same update twice equals applying it once, for every patch, including a renaming one |
| Posts.RemovePostCount | store/posts.ts:101-103 | survivors plus removed posts make up the old length, and removal from an extended list is removal from each part, so survivors keep their order and multiplicity |
| Posts.RemovePostLookup | store/posts.ts:101-104 | after removal the id is not found, and lookups of other ids are unchanged |
| Posts.AddPostLookup | store/posts.ts:93-104 | an appended post is found by its id unless an earlier post carries it |
| Stats.AnyGivenReferral | store/stats.ts:16-17 | `some` is true iff some comment has `isReferral` true and author "You" |
| Stats.ReferralsGiven | store/stats.ts:13-21 | the reduce counts exactly the posts whose thread has a given referral |
| Stats.GetOpportunities | store/stats.ts:22-30 | the reduce counts exactly the posts without a given referral |
| Stats.HasReferral | store/stats.ts:31-36 | true iff the first post with the id has a given referral; false when no post has the id |
| Stats.GivenPlusOpen | store/stats.ts:13-30 | referrals given plus open opportunities equals the number of posts |
| Stats.WithCommentReferral | store/stats.ts:16-17 | after a comment is appended, the post is referred iff it was before or the comment is a given referral |
| Stats.UnflaggedCommentIsNotReferral | store/stats.ts:16-17 | a "You" comment whose flag is absent or false is not a referral and does not change the post's status |
| Stats.AddCommentMonotone | store/stats.ts:13-30 | `addComment` never lowers the referrals given and never raises the open opportunities |
| Stats.AddNonReferralKeepsStats | store/stats.ts:13-36 | a comment that is not a given referral changes no count and no `hasReferral` answer |
| Stats.AddReferralMarksPost | store/stats.ts:15-36 | posting a given referral on an existing post makes `hasReferral` true; on a post already referred it changes neither the given nor the open count |
| Stats.ReceivedIsHardcoded | store/stats.ts:12 | the received figure is the constant 5, which differs from the 4-entry received-referral ledger's count |
| Stats.ReferFirstOfThree | store/stats.ts:13-36 | a given referral on the only post with its id, among three open posts, refers that post: given becomes 1 and open becomes 2 |
| Stats.SeedReferralScenario | store/posts.ts:105-116 | a "You" referral on seed post 1 raises its counter from 8 to 9, makes `hasReferral("1")` true, and moves it from open to given |
| Stats.SeedStats | store/stats.ts:13-36 | the seed posts give 0 referrals and 3 open opportunities, and post 1 has no referral |
| ProfileStore.MergeSocial | store/profile.ts:44-47 | the merged links hold the union of keys; the update's keys override, other existing keys are kept, and no update means the previous links |
| ProfileStore.UpdateProfile | store/profile.ts:39-49 | supplied top-level fields take the update's values, absent ones keep the old values, and `social` is merged key by key |
| ProfileStore.UpdateProfileThen | store/profile.ts:39-49 | two successive updates equal one combined update |
| ProfileStore.UpdateProfileIdempotent | store/profile.ts:39-49 | applying an update twice gives the same profile as applying it once |
| ProfileStore.UpdateWithSelf | store/profile.ts:39-49 | updating a profile with its own fields leaves it unchanged when it has a `social` record |
| Auth.AccessPredicates | utils/auth.ts:7-27 | the user is signed out iff the e-mail is "pat@example.com"; BNI needs the BNI business name too; Facebook needs a present `facebook` key too |
| Auth.RedirectIfNotAuthenticated | utils/auth.ts:32-38 | the guard redirects iff the e-mail is "pat@example.com", the negation of `isAuthenticated` |
| Auth.RedirectIfNotConnectedToBNI | utils/auth.ts:43-49 | the guard redirects iff the user is signed out or the business is not "BNI Member Business" |
| Auth.RedirectIfNotConnectedToFacebook | utils/auth.ts:54-60 | the guard redirects iff the user is signed out or there is no `facebook` key; an empty link counts as present |
| Auth.ConnectionsImplyAuthenticated | utils/auth.ts:16-27 | both connection predicates imply authentication |
| Auth.SeedProfileAccess | store/profile.ts:22-34 | the seed profile is signed in and Facebook-connected but not BNI-connected, and only the BNI guard redirects |
| Auth.BNIOnboardingConnects | utils/auth.ts:16-19 | an update setting the BNI business connects a signed-in user to BNI and keeps the Facebook status |
| Auth.UpdateKeepsFacebook | utils/auth.ts:24-27 | an update that leaves the e-mail alone never drops a Facebook connection, because `social` keys are only added or overwritten |
| ReceivedReferrals.GetReferralById | store/received-referrals.ts:51-52 | returns none iff no entry has the id; otherwise it returns an entry with that id and no match before it |
| ReceivedReferrals.LookupPrefersFirst | store/received-referrals.ts:51-52 | when entries share an id, the first one in list order is returned |
| ReceivedReferrals.TotalMatchesLookups | store/received-referrals.ts:51-54 | a ledger with count 0 finds nothing, and a non-empty ledger finds its first entry |
| ReceivedReferrals.SeedLedger | store/received-referrals.ts:11-40 | the seed holds 4 entries, id "2" belongs to partner "1", and id "5" is not found |

## Left out

- The store machinery (`create`, `set`/`get`, subscriptions) is replaced by explicit state values. `addPartner` is a Promise-returning async function whose rejection is modelled as `Err(MaxPartnersReached)`.
- The received-referral store has no action. Its state is always `Initial`, so the model has no step function for it.
- The navigation call inside each redirect guard is a side effect into the router and is not modelled. Only the guard's boolean result is.
- A partner-availability filter, "best match" partner selection and the recommendation-message template appear in none of the store files. They are not part of this model.
- JavaScript numbers are doubles. `comments + 1` is modelled on unbounded integers, so the loss of precision beyond 2^53 is not modelled.
- A `Partial<T>` key that is present with value `undefined` is modelled only for optional fields. For a required field it falls outside the declared types.
- A `social` object with keys other than linkedin, facebook and instagram cannot be represented. A social key that is present with value `undefined` cannot be represented either.
- React components, theme constants, responsive scaling, navigation wrappers and type declarations are rendering or platform code with no store logic.
