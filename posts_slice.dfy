/**
 * The posts slice of the Redux store: the list of posts, the post being
 * viewed, and the like/dislike toggles that update both in place.
 */
module PostsSlice {
  import opened Wrappers
  import opened Js

  /**
   * A post as the store holds it. `other` stands for every property the
   * reducers never touch (title, content, author, ...).
   */
  datatype Post = Post(
    id: Value,
    likes: int,
    dislikes: int,
    isLiked: bool,
    isDisliked: bool,
    other: map<string, Value>)

  /** The two reaction flags of a post are never both set. */
  predicate Exclusive(p: Post)
  {
    !(p.isLiked && p.isDisliked)
  }

  predicate AllExclusive(posts: seq<Post>)
  {
    forall i :: 0 <= i < |posts| ==> Exclusive(posts[i])
  }

  /** The two reducers that react to a post. */
  datatype Kind = Like | Dislike

  /** `posts.find((p) => p.id === postId)`, as the index of the entry it returns. */
  function FindPost(posts: seq<Post>, postId: Value): (r: Option<nat>)
    ensures r.Some? ==> r.value < |posts| && posts[r.value].id == postId
    ensures r.Some? ==> forall j :: 0 <= j < r.value ==> posts[j].id != postId
    ensures r.None? ==> forall j :: 0 <= j < |posts| ==> posts[j].id != postId
    decreases |posts|
  {
    if posts == [] then None
    else if posts[0].id == postId then Some(0)
    else match FindPost(posts[1..], postId)
      case None => None
      case Some(k) => Some(k + 1)
  }

  /**
   * One `toggleLike` on one post: a dislike is withdrawn first, then the like
   * flag flips and the like count follows it.
   */
  function LikeToggled(p: Post): (r: Post)
    ensures !r.isDisliked
    ensures r.isLiked == !p.isLiked
    ensures r.likes == if r.isLiked then p.likes + 1 else p.likes - 1
    ensures r.dislikes == if p.isDisliked then p.dislikes - 1 else p.dislikes
    ensures r.id == p.id && r.other == p.other
  {
    var p1 := if p.isDisliked then p.(isDisliked := false, dislikes := p.dislikes - 1) else p;
    var p2 := p1.(isLiked := !p1.isLiked);
    p2.(likes := if p2.isLiked then p2.likes + 1 else p2.likes - 1)
  }

  /**
   * One `toggleDislike` on one post: a like is withdrawn first, then the
   * dislike flag flips and the dislike count follows it.
   */
  function DislikeToggled(p: Post): (r: Post)
    ensures !r.isLiked
    ensures r.isDisliked == !p.isDisliked
    ensures r.dislikes == if r.isDisliked then p.dislikes + 1 else p.dislikes - 1
    ensures r.likes == if p.isLiked then p.likes - 1 else p.likes
    ensures r.id == p.id && r.other == p.other
  {
    var p1 := if p.isLiked then p.(isLiked := false, likes := p.likes - 1) else p;
    var p2 := p1.(isDisliked := !p1.isDisliked);
    p2.(dislikes := if p2.isDisliked then p2.dislikes + 1 else p2.dislikes - 1)
  }

  function Toggled(p: Post, kind: Kind): Post
  {
    match kind
    case Like => LikeToggled(p)
    case Dislike => DislikeToggled(p)
  }

  /** The `posts` array after a toggle: only the entry `find` returns is updated. */
  function ToggledInList(posts: seq<Post>, postId: Value, kind: Kind): (r: seq<Post>)
    ensures |r| == |posts|
    ensures FindPost(posts, postId).None? ==> r == posts
    ensures FindPost(posts, postId).Some? ==>
              var i := FindPost(posts, postId).value;
              r[i] == Toggled(posts[i], kind) && forall j :: 0 <= j < |posts| && j != i ==> r[j] == posts[j]
  {
    match FindPost(posts, postId)
    case None => posts
    case Some(i) => posts[i := Toggled(posts[i], kind)]
  }

  /** `state.currentPost` after a toggle, when it exists: updated iff its id matches. */
  function ToggledCurrent(current: Option<Post>, postId: Value, kind: Kind): (r: Option<Post>)
    ensures current.None? ==> r == None
    ensures current.Some? && current.value.id == postId ==> r == Some(Toggled(current.value, kind))
    ensures current.Some? && current.value.id != postId ==> r == current
  {
    if current.Some? && current.value.id == postId then Some(Toggled(current.value, kind)) else current
  }

  /**
   * `state.currentPost?.id === postId` with no current post compares
   * `undefined` with the payload; when that holds, the reducer dereferences
   * `null` and throws.
   */
  function ToggleThrows(current: Option<Post>, postId: Value): (b: bool)
    ensures b ==> current.None? && postId == Undefined
    ensures current.Some? || postId != Undefined ==> !b
  {
    current.None? && postId == Undefined
  }

  class PostsStore {
    var posts: seq<Post>
    var currentPost: Option<Post>
    var loading: bool
    var error: Value

    /** `initialState`. */
    constructor ()
      ensures posts == [] && currentPost == None && !loading && error == Null
    {
      posts, currentPost, loading, error := [], None, false, Null;
    }

    method FetchPostsStart()
      modifies this
      ensures loading && error == Null
      ensures posts == old(posts) && currentPost == old(currentPost)
    {
      loading := true;
      error := Null;
    }

    method FetchPostsSuccess(payload: seq<Post>)
      modifies this
      ensures !loading && error == Null && posts == payload
      ensures currentPost == old(currentPost)
    {
      loading := false;
      posts := payload;
      error := Null;
    }

    method FetchPostsFailure(payload: Value)
      modifies this
      ensures !loading && error == payload
      ensures posts == old(posts) && currentPost == old(currentPost)
    {
      loading := false;
      error := payload;
    }

    method SetCurrentPost(payload: Option<Post>)
      modifies this
      ensures currentPost == payload
      ensures posts == old(posts) && loading == old(loading) && error == old(error)
    {
      currentPost := payload;
    }

    method ToggleLike(postId: Value) returns (threw: bool)
      modifies this
      ensures threw == ToggleThrows(old(currentPost), postId)
      ensures !threw ==> posts == ToggledInList(old(posts), postId, Like)
      ensures !threw ==> currentPost == ToggledCurrent(old(currentPost), postId, Like)
      ensures threw ==> posts == old(posts) && currentPost == old(currentPost)
      ensures loading == old(loading) && error == old(error)
    {
      threw := Toggle(postId, Like);
    }

    method ToggleDislike(postId: Value) returns (threw: bool)
      modifies this
      ensures threw == ToggleThrows(old(currentPost), postId)
      ensures !threw ==> posts == ToggledInList(old(posts), postId, Dislike)
      ensures !threw ==> currentPost == ToggledCurrent(old(currentPost), postId, Dislike)
      ensures threw ==> posts == old(posts) && currentPost == old(currentPost)
      ensures loading == old(loading) && error == old(error)
    {
      threw := Toggle(postId, Dislike);
    }

    /**
     * The body both toggle reducers share. The draft is only committed when
     * the reducer finishes: a reducer that throws leaves the store as it was.
     */
    method Toggle(postId: Value, kind: Kind) returns (threw: bool)
      modifies this
      ensures threw == ToggleThrows(old(currentPost), postId)
      ensures !threw ==> posts == ToggledInList(old(posts), postId, kind)
      ensures !threw ==> currentPost == ToggledCurrent(old(currentPost), postId, kind)
      ensures threw ==> posts == old(posts) && currentPost == old(currentPost)
      ensures loading == old(loading) && error == old(error)
    {
      var draft := posts;
      var found := FindPost(draft, postId);
      if found.Some? {
        var i := found.value;
        draft := draft[i := Toggled(draft[i], kind)];
      }
      var currentId := if currentPost.Some? then currentPost.value.id else Undefined;
      threw := false;
      if currentId == postId {
        if currentPost.None? {
          threw := true;
          return;
        }
        currentPost := Some(Toggled(currentPost.value, kind));
      }
      posts := draft;
    }
  }

  // ---------------------------------------------------------------------
  // Properties of the toggles
  // ---------------------------------------------------------------------

  /** Whatever state a post was in, a toggled post is never liked and disliked at once. */
  lemma ToggledIsExclusive(p: Post, kind: Kind)
    ensures Exclusive(Toggled(p, kind))
  {
  }

  /** The reaction a post shows, for a post whose flags are exclusive. */
  datatype Reaction = Neutral | Liked | Disliked

  function ReactionOf(p: Post): Reaction
    requires Exclusive(p)
  {
    if p.isLiked then Liked else if p.isDisliked then Disliked else Neutral
  }

  /** The counts a post would have without the current user's reaction. */
  function OthersLikes(p: Post): int { if p.isLiked then p.likes - 1 else p.likes }

  function OthersDislikes(p: Post): int { if p.isDisliked then p.dislikes - 1 else p.dislikes }

  /**
   * `toggleLike` against a reference description: it turns a like off and
   * anything else into a like, and never changes what the other users'
   * reactions contribute to the counts.
   */
  lemma LikeToggledAgainstReaction(p: Post)
    requires Exclusive(p)
    ensures ReactionOf(LikeToggled(p)) == if ReactionOf(p) == Liked then Neutral else Liked
    ensures OthersLikes(LikeToggled(p)) == OthersLikes(p)
    ensures OthersDislikes(LikeToggled(p)) == OthersDislikes(p)
  {
  }

  /** The same description for `toggleDislike`. */
  lemma DislikeToggledAgainstReaction(p: Post)
    requires Exclusive(p)
    ensures ReactionOf(DislikeToggled(p)) == if ReactionOf(p) == Disliked then Neutral else Disliked
    ensures OthersLikes(DislikeToggled(p)) == OthersLikes(p)
    ensures OthersDislikes(DislikeToggled(p)) == OthersDislikes(p)
  {
  }

  /** Exchanging the like and dislike sides of a post. */
  function Mirror(p: Post): (r: Post)
    ensures r.likes == p.dislikes && r.dislikes == p.likes
    ensures r.isLiked == p.isDisliked && r.isDisliked == p.isLiked
    ensures r.id == p.id && r.other == p.other
  {
    p.(likes := p.dislikes, dislikes := p.likes, isLiked := p.isDisliked, isDisliked := p.isLiked)
  }

  /** `toggleDislike` is `toggleLike` with the two sides exchanged. */
  lemma DislikeIsMirroredLike(p: Post)
    ensures DislikeToggled(p) == Mirror(LikeToggled(Mirror(p)))
  {
  }

  /** Liking twice a post that is not disliked gives back the same post. */
  lemma LikeTwiceRestores(p: Post)
    requires !p.isDisliked
    ensures LikeToggled(LikeToggled(p)) == p
  {
  }

  /** Disliking twice a post that is not liked gives back the same post. */
  lemma DislikeTwiceRestores(p: Post)
    requires !p.isLiked
    ensures DislikeToggled(DislikeToggled(p)) == p
  {
  }

  /**
   * Liking a disliked post twice is no round trip: the dislike is gone for
   * good, and the post ends neutral with one dislike fewer.
   */
  lemma LikeTwiceFromDisliked(p: Post)
    requires p.isDisliked && !p.isLiked
    ensures LikeToggled(LikeToggled(p)) == p.(isLiked := false, isDisliked := false, dislikes := p.dislikes - 1)
    ensures LikeToggled(LikeToggled(p)) != p
  {
  }

  /** A toggle keeps the id of every entry, so `find` locates the same entry afterwards. */
  lemma {:induction false} FindPostSameIds(a: seq<Post>, b: seq<Post>, postId: Value)
    requires |a| == |b|
    requires forall j :: 0 <= j < |a| ==> a[j].id == b[j].id
    ensures FindPost(a, postId) == FindPost(b, postId)
    decreases |a|
  {
    if a != [] {
      FindPostSameIds(a[1..], b[1..], postId);
    }
  }

  /** Every entry of the list keeps its flags exclusive across a toggle. */
  lemma ToggledInListKeepsExclusive(posts: seq<Post>, postId: Value, kind: Kind)
    requires AllExclusive(posts)
    ensures AllExclusive(ToggledInList(posts, postId, kind))
  {
    var r := ToggledInList(posts, postId, kind);
    forall j | 0 <= j < |r| ensures Exclusive(r[j]) {
      match FindPost(posts, postId)
      case None =>
      case Some(i) => if j == i { ToggledIsExclusive(posts[i], kind); }
    }
  }

  /**
   * Two `toggleLike`s with the same id on a list whose matching entry is not
   * disliked leave the list as it was.
   */
  lemma LikeTwiceInListRestores(posts: seq<Post>, postId: Value)
    requires forall j :: 0 <= j < |posts| && posts[j].id == postId ==> !posts[j].isDisliked
    ensures ToggledInList(ToggledInList(posts, postId, Like), postId, Like) == posts
  {
    var once := ToggledInList(posts, postId, Like);
    FindPostSameIds(posts, once, postId);
    match FindPost(posts, postId)
    case None =>
    case Some(i) =>
      LikeTwiceRestores(posts[i]);
      assert once[i := LikeToggled(once[i])] == posts;
  }

  /**
   * The concrete cases: liking a neutral post with 5 likes gives 6 likes,
   * liking it again gives 5, and liking a post with 3 dislikes that the user
   * disliked moves one vote from the dislikes to the likes.
   */
  lemma LikeExamples(other: map<string, Value>)
    ensures var p := Post(Num(1), 5, 2, false, false, other);
            LikeToggled(p).likes == 6 && LikeToggled(p).isLiked &&
            LikeToggled(LikeToggled(p)).likes == 5 && !LikeToggled(LikeToggled(p)).isLiked
    ensures var d := Post(Num(1), 5, 3, false, true, other);
            LikeToggled(d) == d.(likes := 6, dislikes := 2, isLiked := true, isDisliked := false)
  {
  }
}
