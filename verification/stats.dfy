/** Referral statistics: read-only scans of a post list, recomputed on every
    query. The list is passed in rather than read from the posts store. */
module Stats {
  import opened Wrappers
  import opened Seqs
  import opened Posts
  import ReceivedReferrals

  /** Referrals received, a fixed figure independent of any post. */
  const REFERRALS_RECEIVED: nat := 5

  /** A comment the local user posted as a recommendation; an absent flag is
      not a referral. */
  predicate IsGivenReferral(c: Comment) {
    c.isReferral == Some(true) && c.author == "You"
  }

  /** `comments.some(IsGivenReferral)`. */
  function AnyGivenReferral(cs: seq<Comment>): (r: bool)
    ensures r <==> exists i :: 0 <= i < |cs| && IsGivenReferral(cs[i])
  {
    if cs == [] then false
    else
      assert forall i :: 0 < i < |cs| ==> cs[i] == cs[1..][i - 1];
      IsGivenReferral(cs[0]) || AnyGivenReferral(cs[1..])
  }

  /** A post has been answered with a referral; a post without a thread has not. */
  predicate PostHasReferral(p: Post) {
    match p.commentsList
    case None => false
    case Some(cs) => AnyGivenReferral(cs)
  }

  /** A post still open for a referral. */
  predicate PostIsOpen(p: Post) {
    !PostHasReferral(p)
  }

  /** The number of posts, not comments, that carry a given referral:
      the source's left-to-right `reduce`. */
  function ReferralsGiven(posts: seq<Post>): (n: nat)
    ensures n == |Filter(posts, PostHasReferral)|
    decreases |posts|
  {
    if posts == [] then 0
    else
      var init := posts[..|posts| - 1];
      var last := posts[|posts| - 1];
      assert posts == init + [last];
      FilterConcat(init, [last], PostHasReferral);
      ReferralsGiven(init) + (if PostHasReferral(last) then 1 else 0)
  }

  /** The number of posts without a given referral, by the same `reduce`. */
  function GetOpportunities(posts: seq<Post>): (n: nat)
    ensures n == |Filter(posts, PostIsOpen)|
    decreases |posts|
  {
    if posts == [] then 0
    else
      var init := posts[..|posts| - 1];
      var last := posts[|posts| - 1];
      assert posts == init + [last];
      FilterConcat(init, [last], PostIsOpen);
      GetOpportunities(init) + (if PostHasReferral(last) then 0 else 1)
  }

  /** Whether the first post carrying `postId` has a given referral; false
      when no post carries it or that post has no thread. */
  function HasReferral(posts: seq<Post>, postId: string): (r: bool)
    ensures r <==>
      exists i :: 0 <= i < |posts| && posts[i].id == postId &&
        (forall j :: 0 <= j < i ==> posts[j].id != postId) && PostHasReferral(posts[i])
    ensures (forall i :: 0 <= i < |posts| ==> posts[i].id != postId) ==> !r
  {
    match FindFirst(posts, PostIdIs(postId))
    case None => false
    case Some(p) => PostHasReferral(p)
  }

  /** Every post is either referred or open, so the two counts add up to the
      number of posts. */
  lemma GivenPlusOpen(posts: seq<Post>)
    ensures ReferralsGiven(posts) + GetOpportunities(posts) == |posts|
  {
    FilterPartition(posts, PostHasReferral, PostIsOpen);
  }

  /** Appending a comment makes a post referred exactly when it already was
      or the new comment is a given referral. */
  lemma WithCommentReferral(p: Post, c: Comment)
    ensures PostHasReferral(WithComment(p, c)) <==> PostHasReferral(p) || IsGivenReferral(c)
  {
    var cs := CommentsOf(p);
    var cs' := cs + [c];
    assert CommentsOf(WithComment(p, c)) == cs';
    assert cs'[|cs|] == c;
    assert forall i :: 0 <= i < |cs| ==> cs'[i] == cs[i];
  }

  /** A "You" comment without the referral flag is not a referral and
      leaves the post's referral status as it was. */
  lemma UnflaggedCommentIsNotReferral(p: Post, c: Comment)
    requires c.author == "You" && c.isReferral != Some(true)
    ensures !IsGivenReferral(c)
    ensures PostHasReferral(WithComment(p, c)) == PostHasReferral(p)
  {
    WithCommentReferral(p, c);
  }

  /** Posts whose referral status agrees pointwise have equal counts. */
  lemma SameStatusSameCounts(a: seq<Post>, b: seq<Post>)
    requires |a| == |b|
    requires forall i :: 0 <= i < |a| ==> PostHasReferral(a[i]) == PostHasReferral(b[i])
    ensures ReferralsGiven(a) == ReferralsGiven(b) && GetOpportunities(a) == GetOpportunities(b)
  {
    FilterMonotone(a, b, PostHasReferral);
    FilterMonotone(b, a, PostHasReferral);
    GivenPlusOpen(a);
    GivenPlusOpen(b);
  }

  /** Adding a comment never lowers the referrals given and never raises
      the open opportunities. */
  lemma AddCommentMonotone(s: PostsState, postId: string, c: Comment)
    ensures ReferralsGiven(AddComment(s, postId, c).posts) >= ReferralsGiven(s.posts)
    ensures GetOpportunities(AddComment(s, postId, c).posts) <= GetOpportunities(s.posts)
  {
    var after := AddComment(s, postId, c).posts;
    forall i | 0 <= i < |s.posts| && PostHasReferral(s.posts[i])
      ensures PostHasReferral(after[i])
    {
      if s.posts[i].id == postId {
        WithCommentReferral(s.posts[i], c);
      }
    }
    FilterMonotone(s.posts, after, PostHasReferral);
    GivenPlusOpen(s.posts);
    GivenPlusOpen(after);
  }

  /** A comment that is not a given referral changes no statistic. */
  lemma AddNonReferralKeepsStats(s: PostsState, postId: string, c: Comment, other: string)
    requires !IsGivenReferral(c)
    ensures ReferralsGiven(AddComment(s, postId, c).posts) == ReferralsGiven(s.posts)
    ensures GetOpportunities(AddComment(s, postId, c).posts) == GetOpportunities(s.posts)
    ensures HasReferral(AddComment(s, postId, c).posts, other) == HasReferral(s.posts, other)
  {
    var after := AddComment(s, postId, c).posts;
    forall i | 0 <= i < |s.posts|
      ensures PostHasReferral(after[i]) == PostHasReferral(s.posts[i])
    {
      if s.posts[i].id == postId {
        WithCommentReferral(s.posts[i], c);
      }
    }
    SameStatusSameCounts(s.posts, after);
    if other == postId {
      FindFirstMapWhere(s.posts, PostIdIs(postId), (p: Post) => WithComment(p, c));
      var found := FindFirst(s.posts, PostIdIs(postId));
      if found.Some? {
        WithCommentReferral(found.value, c);
      }
    } else {
      FindFirstMapWhereOther(s.posts, PostIdIs(postId), (p: Post) => WithComment(p, c), PostIdIs(other));
    }
  }

  /** Posting a given referral on an existing post marks it referred; a
      second referral on a post that already has one changes neither count,
      because posts are counted, not comments. */
  lemma AddReferralMarksPost(s: PostsState, postId: string, c: Comment)
    requires IsGivenReferral(c)
    ensures GetPostById(s, postId).Some? ==> HasReferral(AddComment(s, postId, c).posts, postId)
    ensures (forall i :: 0 <= i < |s.posts| && s.posts[i].id == postId ==> PostHasReferral(s.posts[i])) ==>
      ReferralsGiven(AddComment(s, postId, c).posts) == ReferralsGiven(s.posts)
    ensures (forall i :: 0 <= i < |s.posts| && s.posts[i].id == postId ==> PostHasReferral(s.posts[i])) ==>
      GetOpportunities(AddComment(s, postId, c).posts) == GetOpportunities(s.posts)
  {
    var after := AddComment(s, postId, c).posts;
    FindFirstMapWhere(s.posts, PostIdIs(postId), (p: Post) => WithComment(p, c));
    var found := FindFirst(s.posts, PostIdIs(postId));
    if found.Some? {
      WithCommentReferral(found.value, c);
    }
    if forall i :: 0 <= i < |s.posts| && s.posts[i].id == postId ==> PostHasReferral(s.posts[i]) {
      forall i | 0 <= i < |s.posts|
        ensures PostHasReferral(after[i]) == PostHasReferral(s.posts[i])
      {
        if s.posts[i].id == postId {
          WithCommentReferral(s.posts[i], c);
        }
      }
      SameStatusSameCounts(s.posts, after);
    }
  }

  /** The seed posts carry no given referral: none given, three open. */
  lemma SeedStats()
    ensures ReferralsGiven(INITIAL_POSTS) == 0 && GetOpportunities(INITIAL_POSTS) == 3
    ensures !HasReferral(INITIAL_POSTS, "1")
  {
    var ps := INITIAL_POSTS;
    assert !PostHasReferral(ps[0]) && !PostHasReferral(ps[1]) && !PostHasReferral(ps[2]);
    assert ps[..2][..1] == [ps[0]] && ps[..2] == [ps[0], ps[1]];
  }

  /** The received figure is fixed at 5; it is not the length of the
      received-referral ledger, whose seed holds 4 entries. */
  lemma ReceivedIsHardcoded()
    ensures REFERRALS_RECEIVED == 5
    ensures REFERRALS_RECEIVED != ReceivedReferrals.GetTotalReceived(ReceivedReferrals.Initial)
  {
  }

  /** The counts of a three-post list, post by post. */
  lemma CountThree(a: Post, b: Post, c: Post)
    ensures ReferralsGiven([a, b, c]) ==
      (if PostHasReferral(a) then 1 else 0) + (if PostHasReferral(b) then 1 else 0) + (if PostHasReferral(c) then 1 else 0)
  {
    var ps := [a, b, c];
    assert ps[..2] == [a, b] && ps[..2][..1] == [a] && [a][..0] == [];
  }

  /** Posting a given referral on the first of three open posts, the only
      one carrying its id, refers it and leaves the other two open. */
  lemma ReferFirstOfThree(p0: Post, p1: Post, p2: Post, c: Comment, draft: Option<string>)
    requires IsGivenReferral(c) && p1.id != p0.id && p2.id != p0.id
    requires !PostHasReferral(p1) && !PostHasReferral(p2)
    ensures var after := AddComment(PostsState([p0, p1, p2], draft), p0.id, c).posts;
      && after == [WithComment(p0, c), p1, p2]
      && HasReferral(after, p0.id)
      && ReferralsGiven(after) == 1
      && GetOpportunities(after) == 2
  {
    var s := PostsState([p0, p1, p2], draft);
    var after := AddComment(s, p0.id, c).posts;
    assert after == [WithComment(p0, c), p1, p2];
    AddReferralMarksPost(s, p0.id, c);
    WithCommentReferral(p0, c);
    CountThree(WithComment(p0, c), p1, p2);
    GivenPlusOpen(after);
  }

  /** Posting a "You" referral on seed post 1 bumps its counter to 9, marks
      it referred, and moves it from the open count to the given count. */
  lemma SeedReferralScenario()
    ensures var after := AddComment(Initial, "1", Comment("9", "You", "msg", "now", Some(true))).posts;
      && after[0].comments == 9
      && HasReferral(after, "1")
      && ReferralsGiven(after) == 1
      && GetOpportunities(after) == 2
  {
    var p0, p1, p2 := INITIAL_POSTS[0], INITIAL_POSTS[1], INITIAL_POSTS[2];
    assert INITIAL_POSTS == [p0, p1, p2];
    assert !PostHasReferral(p1) && !PostHasReferral(p2);
    ReferFirstOfThree(p0, p1, p2, Comment("9", "You", "msg", "now", Some(true)), None);
  }
}
