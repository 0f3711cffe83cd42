/** The post (opportunity) ledger: posts soliciting a recommendation, each
    with a comment counter and an optional comment thread, plus a
    single-slot draft message. */
module Posts {
  import opened Wrappers
  import opened Seqs

  datatype Comment = Comment(
    id: string,
    author: string,
    content: string,
    timestamp: string,
    isReferral: Option<bool>)

  datatype Source = Facebook | Instagram | LinkedIn

  datatype Post = Post(
    id: string,
    source: Source,
    content: string,
    likes: int,
    comments: int,
    shares: int,
    timestamp: string,
    commentsList: Option<seq<Comment>>)

  /** `Partial<Post>`: `None` means the key is absent. For the optional
      `comments_list`, `Some(None)` is a key present with value `undefined`,
      which the object spread copies like any other value. */
  datatype PostPatch = PostPatch(
    id: Option<string>,
    source: Option<Source>,
    content: Option<string>,
    likes: Option<int>,
    comments: Option<int>,
    shares: Option<int>,
    timestamp: Option<string>,
    commentsList: Option<Option<seq<Comment>>>)

  const EmptyPatch: PostPatch := PostPatch(None, None, None, None, None, None, None, None)

  datatype PostsState = PostsState(posts: seq<Post>, draftMessage: Option<string>)

  const INITIAL_POSTS: seq<Post> := [
    Post("1", Facebook,
      "Looking for recommendations for a reliable financial advisor in the Bellevue area. Need help with retirement planning and investment strategies. Any suggestions would be greatly appreciated!",
      15, 8, 2, "2h ago",
      Some([Comment("1", "John Smith", "I've been working with someone great, I'll DM you their details!", "1h ago", None)])),
    Post("2", LinkedIn,
      "Our startup is growing and we need legal advice for contract negotiations and IP protection. Can anyone recommend a good business attorney in Seattle?",
      42, 12, 5, "4h ago",
      Some([Comment("1", "Jane Doe", "I know a great attorney who specializes in startups.", "3h ago", None)])),
    Post("3", Facebook,
      "Hi neighbors! We're looking to renovate our kitchen and need recommendations for reliable contractors. Budget is flexible for the right team. Any suggestions?",
      28, 21, 3, "6h ago",
      Some([Comment("1", "Mike Wilson", "We just had our kitchen done, I'll send you some details!", "5h ago", None)]))
  ]

  const Initial: PostsState := PostsState(INITIAL_POSTS, None)

  /** Selects the posts carrying `id`. */
  function PostIdIs(id: string): Post -> bool {
    (p: Post) => p.id == id
  }

  /** Selects the posts not carrying `id`. */
  function PostIdIsNot(id: string): Post -> bool {
    (p: Post) => p.id != id
  }

  /** A post's comment thread, with an absent list read as empty. */
  function CommentsOf(p: Post): seq<Comment> {
    p.commentsList.GetOr([])
  }

  /** The counter agrees with the thread; the seed data does not maintain this. */
  predicate CounterConsistent(p: Post) {
    p.comments == |CommentsOf(p)|
  }

  /** Replaces the post list. */
  function SetPosts(s: PostsState, ps: seq<Post>): (r: PostsState)
    ensures r.posts == ps && r.draftMessage == s.draftMessage
  {
    s.(posts := ps)
  }

  /** Appends a post at the end. */
  function AddPost(s: PostsState, p: Post): (r: PostsState)
    ensures |r.posts| == |s.posts| + 1
    ensures r.posts[..|s.posts|] == s.posts && r.posts[|s.posts|] == p
    ensures r.draftMessage == s.draftMessage
  {
    s.(posts := s.posts + [p])
  }

  /** `{ ...post, ...patch }`: supplied fields win, the others are kept. */
  function Overlay(p: Post, patch: PostPatch): (r: Post)
    ensures patch == EmptyPatch ==> r == p
    ensures patch.id.Some? ==> r.id == patch.id.value
    ensures patch.id.None? ==> r.id == p.id
    ensures patch.source.Some? ==> r.source == patch.source.value
    ensures patch.source.None? ==> r.source == p.source
    ensures patch.content.Some? ==> r.content == patch.content.value
    ensures patch.content.None? ==> r.content == p.content
    ensures patch.likes.Some? ==> r.likes == patch.likes.value
    ensures patch.likes.None? ==> r.likes == p.likes
    ensures patch.comments.Some? ==> r.comments == patch.comments.value
    ensures patch.comments.None? ==> r.comments == p.comments
    ensures patch.shares.Some? ==> r.shares == patch.shares.value
    ensures patch.shares.None? ==> r.shares == p.shares
    ensures patch.timestamp.Some? ==> r.timestamp == patch.timestamp.value
    ensures patch.timestamp.None? ==> r.timestamp == p.timestamp
    ensures patch.commentsList.Some? ==> r.commentsList == patch.commentsList.value
    ensures patch.commentsList.None? ==> r.commentsList == p.commentsList
  {
    Post(
      patch.id.GetOr(p.id),
      patch.source.GetOr(p.source),
      patch.content.GetOr(p.content),
      patch.likes.GetOr(p.likes),
      patch.comments.GetOr(p.comments),
      patch.shares.GetOr(p.shares),
      patch.timestamp.GetOr(p.timestamp),
      patch.commentsList.GetOr(p.commentsList))
  }

  /** The patch equivalent to applying `a` and then `b`: `b`'s keys win. */
  function Combine(a: PostPatch, b: PostPatch): PostPatch {
    PostPatch(
      if b.id.Some? then b.id else a.id,
      if b.source.Some? then b.source else a.source,
      if b.content.Some? then b.content else a.content,
      if b.likes.Some? then b.likes else a.likes,
      if b.comments.Some? then b.comments else a.comments,
      if b.shares.Some? then b.shares else a.shares,
      if b.timestamp.Some? then b.timestamp else a.timestamp,
      if b.commentsList.Some? then b.commentsList else a.commentsList)
  }

  /** Overlays every post carrying `id` with `patch`. */
  function UpdatePost(s: PostsState, id: string, patch: PostPatch): (r: PostsState)
    ensures |r.posts| == |s.posts| && r.draftMessage == s.draftMessage
    ensures forall i :: 0 <= i < |s.posts| && s.posts[i].id == id ==> r.posts[i] == Overlay(s.posts[i], patch)
    ensures forall i :: 0 <= i < |s.posts| && s.posts[i].id != id ==> r.posts[i] == s.posts[i]
  {
    s.(posts := MapWhere(s.posts, PostIdIs(id), (p: Post) => Overlay(p, patch)))
  }

  /** Drops every post carrying `id`, keeping the others in order. */
  function RemovePost(s: PostsState, id: string): (r: PostsState)
    ensures forall i :: 0 <= i < |r.posts| ==> r.posts[i].id != id && r.posts[i] in s.posts
    ensures forall i :: 0 <= i < |s.posts| && s.posts[i].id != id ==> s.posts[i] in r.posts
    ensures (forall i :: 0 <= i < |s.posts| ==> s.posts[i].id != id) ==> r == s
    ensures |r.posts| <= |s.posts| && r.draftMessage == s.draftMessage
  {
    s.(posts := Filter(s.posts, PostIdIsNot(id)))
  }

  /** The first post carrying `id`, if any. */
  function GetPostById(s: PostsState, id: string): (r: Option<Post>)
    ensures r.None? <==> forall i :: 0 <= i < |s.posts| ==> s.posts[i].id != id
    ensures r.Some? ==>
      exists i :: 0 <= i < |s.posts| && s.posts[i] == r.value && r.value.id == id &&
        forall j :: 0 <= j < i ==> s.posts[j].id != id
  {
    FindFirst(s.posts, PostIdIs(id))
  }

  /** One post with `c` appended to its thread and its counter bumped. */
  function WithComment(p: Post, c: Comment): (r: Post)
    ensures r.comments == p.comments + 1
    ensures r.commentsList.Some? && CommentsOf(r) == CommentsOf(p) + [c]
    ensures r.comments - |CommentsOf(r)| == p.comments - |CommentsOf(p)|
    ensures r.id == p.id && r.source == p.source && r.content == p.content
    ensures r.likes == p.likes && r.shares == p.shares && r.timestamp == p.timestamp
  {
    p.(comments := p.comments + 1, commentsList := Some(CommentsOf(p) + [c]))
  }

  /** Appends `c` to every post carrying `postId`; other posts are untouched. */
  function AddComment(s: PostsState, postId: string, c: Comment): (r: PostsState)
    ensures |r.posts| == |s.posts| && r.draftMessage == s.draftMessage
    ensures forall i :: 0 <= i < |s.posts| && s.posts[i].id == postId ==> r.posts[i] == WithComment(s.posts[i], c)
    ensures forall i :: 0 <= i < |s.posts| && s.posts[i].id != postId ==> r.posts[i] == s.posts[i]
    ensures (forall i :: 0 <= i < |s.posts| ==> s.posts[i].id != postId) ==> r == s
  {
    s.(posts := MapWhere(s.posts, PostIdIs(postId), (p: Post) => WithComment(p, c)))
  }

  /** Replaces the single-slot draft; the posts are untouched. */
  function SetDraftMessage(s: PostsState, m: Option<string>): (r: PostsState)
    ensures r.posts == s.posts && r.draftMessage == m
  {
    s.(draftMessage := m)
  }

  /** The first seed post claims eight comments but lists one. */
  lemma SeedCounterMismatch()
    ensures !CounterConsistent(INITIAL_POSTS[0])
    ensures INITIAL_POSTS[0].comments - |CommentsOf(INITIAL_POSTS[0])| == 7
  {
  }

  /** `AddComment` keeps each post's counter-minus-thread-length, hence keeps
      consistent posts consistent, and never changes the number of posts. */
  lemma AddCommentKeepsCounterGap(s: PostsState, postId: string, c: Comment, i: int)
    requires 0 <= i < |s.posts|
    ensures AddComment(s, postId, c).posts[i].comments - |CommentsOf(AddComment(s, postId, c).posts[i])|
      == s.posts[i].comments - |CommentsOf(s.posts[i])|
    ensures CounterConsistent(s.posts[i]) ==> CounterConsistent(AddComment(s, postId, c).posts[i])
  {
  }

  /** Looking up the commented post finds it with the comment appended;
      lookups of other ids are unaffected. */
  lemma AddCommentLookup(s: PostsState, postId: string, c: Comment, other: string)
    requires other != postId
    ensures GetPostById(s, postId).None? ==> GetPostById(AddComment(s, postId, c), postId).None?
    ensures GetPostById(s, postId).Some? ==>
      GetPostById(AddComment(s, postId, c), postId) == Some(WithComment(GetPostById(s, postId).value, c))
    ensures GetPostById(AddComment(s, postId, c), other) == GetPostById(s, other)
  {
    FindFirstMapWhere(s.posts, PostIdIs(postId), (p: Post) => WithComment(p, c));
    FindFirstMapWhereOther(s.posts, PostIdIs(postId), (p: Post) => WithComment(p, c), PostIdIs(other));
  }

  /** Overlaying `a` and then `b` is overlaying their combination. */
  lemma OverlayCompose(p: Post, a: PostPatch, b: PostPatch)
    ensures Overlay(Overlay(p, a), b) == Overlay(p, Combine(a, b))
  {
  }

  /** Two updates of the same id merge into one, provided the first keeps the
      updated posts under that id (a renaming patch moves them out of reach
      of the second update). */
  lemma UpdatePostTwice(s: PostsState, id: string, a: PostPatch, b: PostPatch)
    requires a.id.None? || a.id == Some(id)
    ensures UpdatePost(UpdatePost(s, id, a), id, b) == UpdatePost(s, id, Combine(a, b))
  {
    var once := UpdatePost(s, id, a);
    var twice := UpdatePost(once, id, b);
    var merged := UpdatePost(s, id, Combine(a, b));
    forall i | 0 <= i < |s.posts|
      ensures twice.posts[i] == merged.posts[i]
    {
      if s.posts[i].id == id {
        OverlayCompose(s.posts[i], a, b);
      }
    }
  }

  /** Applying the same update twice is applying it once, for every patch,
      including one that renames the matched posts. */
  lemma UpdatePostIdempotent(s: PostsState, id: string, a: PostPatch)
    ensures UpdatePost(UpdatePost(s, id, a), id, a) == UpdatePost(s, id, a)
  {
    var once := UpdatePost(s, id, a);
    var again := UpdatePost(once, id, a);
    forall i | 0 <= i < |s.posts|
      ensures again.posts[i] == once.posts[i]
    {
      if once.posts[i].id == id {
        OverlayCompose(s.posts[i], a, a);
        assert Combine(a, a) == a;
      }
    }
  }

  /** Removal drops exactly the posts carrying the id: their count plus the
      survivors' is the old length, and removal commutes with appending, so
      the survivors keep their order and multiplicity. */
  lemma RemovePostCount(s: PostsState, id: string, more: seq<Post>)
    ensures |RemovePost(s, id).posts| + |Filter(s.posts, PostIdIs(id))| == |s.posts|
    ensures RemovePost(s.(posts := s.posts + more), id).posts
      == RemovePost(s, id).posts + Filter(more, PostIdIsNot(id))
  {
    FilterPartition(s.posts, PostIdIsNot(id), PostIdIs(id));
    FilterConcat(s.posts, more, PostIdIsNot(id));
  }

  /** After removal no lookup finds the id; lookups of other ids are unaffected. */
  lemma {:induction false} RemovePostLookup(s: PostsState, id: string, other: string)
    requires other != id
    ensures GetPostById(RemovePost(s, id), id).None?
    ensures GetPostById(RemovePost(s, id), other) == GetPostById(s, other)
    decreases |s.posts|
  {
    if s.posts != [] {
      var t := s.(posts := s.posts[1..]);
      RemovePostLookup(t, id, other);
    }
  }

  /** An appended post is found by its id unless an earlier post carries it. */
  lemma AddPostLookup(s: PostsState, p: Post)
    ensures GetPostById(s, p.id).None? ==> GetPostById(AddPost(s, p), p.id) == Some(p)
    ensures GetPostById(s, p.id).Some? ==> GetPostById(AddPost(s, p), p.id) == GetPostById(s, p.id)
  {
    FindFirstAppend(s.posts, p, PostIdIs(p.id));
  }
}
