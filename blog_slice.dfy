/** The blog slice's state and reducer cases, and each thunk run as one step
    from its pending action to its settling action. */
module BlogSlice {
  import opened Wrappers
  import opened Entities
  import opened BlogThunks
  import Js

  /** The `blog` field has two shapes: the list fetch stores an array of posts,
      the by-id fetch a single post. */
  datatype BlogView = Many(posts: seq<Post>) | One(post: Post)

  /** The guard `blog && blog.id === id` of the per-post cases: only a single
      loaded post with that id passes; a list never does. */
  predicate Loaded(blog: BlogView, id: string): (b: bool)
    ensures blog.Many? ==> !b
    ensures b <==> exists post: Post :: blog == One(post) && post.id == id
  {
    blog.One? && blog.post.id == id
  }

  /** The slice's state, `{blog, popularBlogs, isLoading, error}`, updated in place. */
  class BlogStore {
    var blog: BlogView
    var popularBlogs: seq<Post>
    var isLoading: bool
    var error: Option<string>

    /** The initial state: an empty list, no popular posts, loading, no error. */
    constructor ()
      ensures blog == Many([]) && popularBlogs == [] && isLoading && error == None
    {
      blog := Many([]);
      popularBlogs := [];
      isLoading := true;
      error := None;
    }

    // -------------------------------------------------------------------------
    // The reducer cases
    // -------------------------------------------------------------------------

    /** The pending case shared by the three fetches: loading, error cleared. */
    method FetchPending()
      modifies this
      ensures isLoading && error == None
      ensures blog == old(blog) && popularBlogs == old(popularBlogs)
    {
      isLoading := true;
      error := None;
    }

    /** The rejected case shared by the three fetches: not loading, the message
        recorded, both post fields as they were. */
    method FetchRejected(message: string)
      modifies this
      ensures !isLoading && error == Some(message)
      ensures blog == old(blog) && popularBlogs == old(popularBlogs)
    {
      isLoading := false;
      error := Some(message);
    }

    /** `fetchBlogs.fulfilled`: the list replaces `blog`; the error is left. */
    method FetchBlogsFulfilled(posts: seq<Post>)
      modifies this
      ensures !isLoading && blog == Many(posts)
      ensures error == old(error) && popularBlogs == old(popularBlogs)
    {
      isLoading := false;
      blog := Many(posts);
    }

    /** `fetchBlogById.fulfilled`: the single post replaces `blog`; the error is left. */
    method FetchBlogByIdFulfilled(post: Post)
      modifies this
      ensures !isLoading && blog == One(post)
      ensures error == old(error) && popularBlogs == old(popularBlogs)
    {
      isLoading := false;
      blog := One(post);
    }

    /** `fetchPopularBlogs.fulfilled`: the list replaces `popularBlogs`; the error is left. */
    method FetchPopularBlogsFulfilled(posts: seq<Post>)
      modifies this
      ensures !isLoading && popularBlogs == posts
      ensures error == old(error) && blog == old(blog)
    {
      isLoading := false;
      popularBlogs := posts;
    }

    /** `likeBlog.fulfilled`: the loaded post, if it has the payload's id, takes
        the new likes list; nothing else changes. */
    method LikeBlogFulfilled(payload: LikePayload)
      modifies this
      ensures isLoading == old(isLoading) && error == old(error) && popularBlogs == old(popularBlogs)
      ensures Loaded(old(blog), payload.id) ==> blog == One(old(blog).post.(likes := payload.likes))
      ensures !Loaded(old(blog), payload.id) ==> blog == old(blog)
    {
      if Loaded(blog, payload.id) {
        blog := One(blog.post.(likes := payload.likes));
      }
    }

    /** `addCommentToBlog.fulfilled`: the loaded post, if it has the payload's id,
        gets the comment as its new last comment, the earlier ones kept. */
    method AddCommentFulfilled(payload: CommentPayload)
      modifies this
      ensures isLoading == old(isLoading) && error == old(error) && popularBlogs == old(popularBlogs)
      ensures Loaded(old(blog), payload.id) ==>
        var before := old(blog).post;
        && blog.One?
        && blog.post.(comments := before.comments) == before
        && |blog.post.comments| == |before.comments| + 1
        && blog.post.comments[..|before.comments|] == before.comments
        && blog.post.comments[|before.comments|] == payload.commentData
      ensures !Loaded(old(blog), payload.id) ==> blog == old(blog)
    {
      if Loaded(blog, payload.id) {
        blog := One(blog.post.(comments := blog.post.comments + [payload.commentData]));
      }
    }

    /** `removeCommentFromBlog.fulfilled`: the loaded post, if it has the
        payload's id, loses a comment by `splice(index, 1)`, which has no bounds
        check of its own (a negative index counts from the end). */
    method RemoveCommentFulfilled(payload: RemovePayload)
      modifies this
      ensures isLoading == old(isLoading) && error == old(error) && popularBlogs == old(popularBlogs)
      ensures Loaded(old(blog), payload.id) ==>
        blog == One(old(blog).post.(comments := Js.SpliceOne(old(blog).post.comments, payload.index)))
      ensures !Loaded(old(blog), payload.id) ==> blog == old(blog)
    {
      if Loaded(blog, payload.id) {
        blog := One(blog.post.(comments := Js.SpliceOne(blog.post.comments, payload.index)));
      }
    }

    /** `updateBlogViews.fulfilled`: the loaded post, if it has the id, counts one
        more view. */
    method UpdateViewsFulfilled(id: string)
      modifies this
      ensures isLoading == old(isLoading) && error == old(error) && popularBlogs == old(popularBlogs)
      ensures Loaded(old(blog), id) ==> blog.One? && blog.post.views == old(blog).post.views + 1
      ensures Loaded(old(blog), id) ==> blog.post.(views := old(blog).post.views) == old(blog).post
      ensures !Loaded(old(blog), id) ==> blog == old(blog)
    {
      if Loaded(blog, id) {
        blog := One(blog.post.(views := blog.post.views + 1));
      }
    }

    // -------------------------------------------------------------------------
    // Each thunk as one step: pending, body, settling action
    // -------------------------------------------------------------------------

    /** `fetchBlogs(searchQuery)`: afterwards not loading; on success `blog` is
        the fetched list and the error is cleared, on failure `blog` is kept and
        the error recorded. `popularBlogs` is never touched. */
    method RunFetchBlogs(snapshot: Outcome<seq<BlogDoc>>, searchQuery: Option<string>)
      modifies this
      ensures !isLoading && popularBlogs == old(popularBlogs)
      ensures var r := FetchBlogs(snapshot, searchQuery);
        && (r.Ok? ==> blog == Many(r.data) && error == None)
        && (r.Err? ==> blog == old(blog) && error == Some(r.msg))
    {
      FetchPending();
      match FetchBlogs(snapshot, searchQuery)
      case Ok(posts) => FetchBlogsFulfilled(posts);
      case Err(m) => FetchRejected(m);
    }

    /** `fetchBlogById(id)`: afterwards not loading; a found post replaces
        `blog`, a missing one leaves `blog` and records "Blog not found". */
    method RunFetchBlogById(id: string, read: Outcome<Option<BlogData>>)
      modifies this
      ensures !isLoading && popularBlogs == old(popularBlogs)
      ensures read == Ok(None) ==> blog == old(blog) && error == Some(BlogNotFound)
      ensures var r := FetchBlogById(id, read);
        && (r.Ok? ==> blog == One(r.data) && error == None)
        && (r.Err? ==> blog == old(blog) && error == Some(r.msg))
    {
      FetchPending();
      match FetchBlogById(id, read)
      case Ok(post) => FetchBlogByIdFulfilled(post);
      case Err(m) => FetchRejected(m);
    }

    /** `fetchPopularBlogs()`: afterwards not loading; `blog` is never touched. */
    method RunFetchPopularBlogs(snapshot: Outcome<seq<BlogDoc>>)
      modifies this
      ensures !isLoading && blog == old(blog)
      ensures var r := FetchPopularBlogs(snapshot);
        && (r.Ok? ==> popularBlogs == r.data && error == None)
        && (r.Err? ==> popularBlogs == old(popularBlogs) && error == Some(r.msg))
    {
      FetchPending();
      match FetchPopularBlogs(snapshot)
      case Ok(posts) => FetchPopularBlogsFulfilled(posts);
      case Err(m) => FetchRejected(m);
    }

    /** `likeBlog(id)`: it has no pending or rejected case, so loading and error
        never change, and a failure (no signed-in user, a failed read or write)
        leaves the whole state as it was. */
    method RunLikeBlog(user: Option<User>, id: string, read: Outcome<seq<string>>, write: Outcome<()>)
      modifies this
      ensures isLoading == old(isLoading) && error == old(error) && popularBlogs == old(popularBlogs)
      ensures user.None? ==> blog == old(blog)
      ensures LikeBlog(user, id, read, write).result.Err? ==> blog == old(blog)
      ensures LikeBlog(user, id, read, write).result.Ok? && Loaded(old(blog), id) ==>
        blog == One(old(blog).post.(likes := ToggleLike(read.data, user.value.id)))
      ensures !Loaded(old(blog), id) ==> blog == old(blog)
    {
      match LikeBlog(user, id, read, write).result
      case Ok(payload) => LikeBlogFulfilled(payload);
      case Err(_) =>
    }

    /** `addCommentToBlog({id, commentData})`: no pending or rejected case; on
        success the loaded post with that id ends with the serialized comment. */
    method RunAddComment(id: string, commentData: Comment, read: Outcome<seq<Comment>>, write: Outcome<()>)
      modifies this
      ensures isLoading == old(isLoading) && error == old(error) && popularBlogs == old(popularBlogs)
      ensures AddCommentToBlog(id, commentData, read, write).result.Err? ==> blog == old(blog)
      ensures AddCommentToBlog(id, commentData, read, write).result.Ok? && Loaded(old(blog), id) ==>
        blog == One(old(blog).post.(comments := old(blog).post.comments + [SerializeComment(commentData)]))
      ensures !Loaded(old(blog), id) ==> blog == old(blog)
    {
      match AddCommentToBlog(id, commentData, read, write).result
      case Ok(payload) => AddCommentFulfilled(payload);
      case Err(_) =>
    }

    /** `removeCommentFromBlog({id, index})`: no pending or rejected case; on
        success the loaded post with that id is spliced at `index`. */
    method RunRemoveComment(id: string, index: int, read: Outcome<seq<Comment>>, write: Outcome<()>)
      returns (sent: Option<seq<Comment>>)
      modifies this
      ensures isLoading == old(isLoading) && error == old(error) && popularBlogs == old(popularBlogs)
      ensures read.Err? ==> sent == None
      ensures read.Ok? ==> sent == Some(RemovedAt(read.data, index))
      ensures read.Err? || write.Err? || !Loaded(old(blog), id) ==> blog == old(blog)
      ensures read.Ok? && write.Ok? && Loaded(old(blog), id) ==>
        blog == One(old(blog).post.(comments := Js.SpliceOne(old(blog).post.comments, index)))
    {
      var step := RemoveCommentFromBlog(id, index, read, write);
      sent := step.sent;
      match step.result
      case Ok(payload) => RemoveCommentFulfilled(payload);
      case Err(_) =>
    }

    /** `updateBlogViews(id)`: no pending or rejected case; on success the loaded
        post with that id counts exactly one more view. */
    method RunUpdateViews(id: string, write: Outcome<()>)
      modifies this
      ensures isLoading == old(isLoading) && error == old(error) && popularBlogs == old(popularBlogs)
      ensures write.Err? || !Loaded(old(blog), id) ==> blog == old(blog)
      ensures write.Ok? && Loaded(old(blog), id) ==>
        blog == One(old(blog).post.(views := old(blog).post.views + 1))
    {
      match UpdateBlogViews(id, write).result
      case Ok(target) => UpdateViewsFulfilled(target);
      case Err(_) =>
    }
  }

  /** Adding a comment and then removing it at the position it took restores
      the comment list, both in the store and in the loaded post. */
  lemma AddThenRemoveRestores(comments: seq<Comment>, c: Comment)
    ensures RemovedAt(comments + [c], |comments|) == comments
    ensures Js.SpliceOne(comments + [c], |comments|) == comments
  {
    assert (comments + [c])[..|comments|] == comments;
  }

  /** For an in-bounds or too-large index the reducer's splice and the stored
      removal agree; for index -1 on a non-empty list the reducer drops the last
      comment while the store keeps the list whole. */
  lemma SpliceAgainstStoredRemoval(comments: seq<Comment>, index: int)
    ensures index >= 0 ==> Js.SpliceOne(comments, index) == RemovedAt(comments, index)
    ensures comments != [] ==> Js.SpliceOne(comments, -1) == comments[..|comments| - 1]
    ensures comments != [] ==> RemovedAt(comments, -1) == comments
  {
    if comments != [] {
      assert Js.SpliceOne(comments, -1) == Js.Without(comments, |comments| - 1);
    }
  }
}
