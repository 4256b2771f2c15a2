/** The bodies of the blog slice's seven thunks, with every call into the
    document store replaced by a parameter holding that call's outcome. */
module BlogThunks {
  import opened Wrappers
  import opened Entities
  import Js

  /** A blog post as the slice holds it: the stored fields, the document id, and
      the two dates serialized for display. */
  datatype Post = Post(
    id: string,
    title: string,
    body: string,
    imageUrl: string,
    author: User,
    tags: string,
    category: string,
    likes: seq<string>,
    views: int,
    comments: seq<Comment>,
    published: string,
    updated: string)

  /** The fields of a stored blog document, dates as stored. */
  datatype BlogData = BlogData(
    title: string,
    body: string,
    imageUrl: string,
    author: User,
    tags: string,
    category: string,
    likes: seq<string>,
    views: int,
    comments: seq<Comment>,
    published: Stamp,
    updated: Stamp)

  /** One document of a collection query: its id and its fields. */
  datatype BlogDoc = BlogDoc(id: string, data: BlogData)

  /** What a thunk that writes to the store did: the write it issued (None when
      it failed before issuing one) and its own outcome. */
  datatype Step<+W, +P> = Step(sent: Option<W>, result: Outcome<P>)

  const BlogNotFound: string := "Blog not found"

  // ---------------------------------------------------------------------------
  // serializeTimestamp and the document mapping
  // ---------------------------------------------------------------------------

  /** `serializeTimestamp`: the formatted date of a value with a callable
      `toDate`, and "" for anything else. */
  function SerializeTimestamp(t: Stamp): (r: string)
    ensures r == "" <==> !(t.Obj? && t.toDate.Callable?)
    ensures t.Obj? && t.toDate.Callable? ==> r == t.toDate.formatted
  {
    match t
    case Obj(Callable(formatted)) => formatted
    case _ => ""
  }

  /** A post built from a document by the list and popular fetches: id and dates
      first, then every other stored field. Comments keep their stored dates. */
  function FromDoc(d: BlogDoc): (p: Post)
    ensures p.id == d.id
    ensures p.published == SerializeTimestamp(d.data.published) && p.updated == SerializeTimestamp(d.data.updated)
    ensures p.title == d.data.title && p.body == d.data.body && p.imageUrl == d.data.imageUrl
    ensures p.author == d.data.author && p.tags == d.data.tags && p.category == d.data.category
    ensures p.likes == d.data.likes && p.views == d.data.views && p.comments == d.data.comments
  {
    var f := d.data;
    Post(d.id, f.title, f.body, f.imageUrl, f.author, f.tags, f.category, f.likes, f.views,
         f.comments, SerializeTimestamp(f.published), SerializeTimestamp(f.updated))
  }

  /** The list fetches' `docs.map(...)`: one post per document, in order. */
  function FromDocs(docs: seq<BlogDoc>): (posts: seq<Post>)
    ensures |posts| == |docs|
    ensures forall i :: 0 <= i < |docs| ==> posts[i] == FromDoc(docs[i])
  {
    seq(|docs|, i requires 0 <= i < |docs| => FromDoc(docs[i]))
  }

  /** A comment with its date serialized, as the add-comment and by-id paths write it. */
  function SerializeComment(c: Comment): (r: Comment)
    ensures r.author == c.author && r.body == c.body
    ensures r.published == Str(SerializeTimestamp(c.published))
  {
    c.(published := Str(SerializeTimestamp(c.published)))
  }

  /** A comment saved by `addCommentToBlog` already holds a string date, so the
      by-id fetch, serializing it again, shows it with an empty date. */
  lemma ReloadedCommentDateIsBlank(c: Comment)
    ensures SerializeComment(SerializeComment(c)).published == Str("")
    ensures SerializeComment(SerializeComment(c)).body == c.body
  {
  }

  // ---------------------------------------------------------------------------
  // fetchBlogs, fetchPopularBlogs, fetchBlogById
  // ---------------------------------------------------------------------------

  /** The search test of `fetchBlogs`: the lower-cased query occurs in the
      lower-cased title, body or category, or in the tags as stored. */
  predicate Matches(p: Post, query: string): (m: bool)
    ensures m <==>
      || Js.Occurs(Js.ToLowerCase(p.title), Js.ToLowerCase(query))
      || Js.Occurs(Js.ToLowerCase(p.body), Js.ToLowerCase(query))
      || Js.Occurs(p.tags, Js.ToLowerCase(query))
      || Js.Occurs(Js.ToLowerCase(p.category), Js.ToLowerCase(query))
  {
    var q := Js.ToLowerCase(query);
    Js.IncludesIffOccurs(Js.ToLowerCase(p.title), q);
    Js.IncludesIffOccurs(Js.ToLowerCase(p.body), q);
    Js.IncludesIffOccurs(p.tags, q);
    Js.IncludesIffOccurs(Js.ToLowerCase(p.category), q);
    || Js.Includes(Js.ToLowerCase(p.title), q)
    || Js.Includes(Js.ToLowerCase(p.body), q)
    || Js.Includes(p.tags, q)
    || Js.Includes(Js.ToLowerCase(p.category), q)
  }

  /** `Matches` as the callback handed to `filter`. */
  function SearchHit(query: string): Post -> bool
  {
    p => Matches(p, query)
  }

  /** The query is truthy: present and not the empty string. */
  predicate Searching(searchQuery: Option<string>): (truthy: bool)
    ensures searchQuery.None? ==> !truthy
    ensures searchQuery.Some? ==> (truthy <==> |searchQuery.value| > 0)
  {
    searchQuery.Some? && searchQuery.value != ""
  }

  /** `fetchBlogs`: every document mapped, in store order; with a truthy query,
      only the posts that match it, each as often and in the same order. */
  function FetchBlogs(snapshot: Outcome<seq<BlogDoc>>, searchQuery: Option<string>): (r: Outcome<seq<Post>>)
    ensures r.Ok? <==> snapshot.Ok?
    ensures snapshot.Err? ==> r.msg == snapshot.msg
    ensures snapshot.Ok? && !Searching(searchQuery) ==> r.data == FromDocs(snapshot.data)
    ensures snapshot.Ok? && Searching(searchQuery) ==>
      && Js.IsSubsequence(r.data, FromDocs(snapshot.data))
      && forall p :: multiset(r.data)[p] == if Matches(p, searchQuery.value) then multiset(FromDocs(snapshot.data))[p] else 0
  {
    match snapshot
    case Err(m) => Err(m)
    case Ok(docs) =>
      var blogs := FromDocs(docs);
      if Searching(searchQuery) then
        var hit := SearchHit(searchQuery.value);
        Js.FilterCounts(blogs, hit);
        Js.FilterIsSubsequence(blogs, hit);
        Ok(Js.Filter(blogs, hit))
      else
        Ok(blogs)
  }

  /** The tags are compared as stored while the query is lower-cased, so only
      lower-case tag text can be found: the query "Dafny" misses the tags
      "Dafny" but finds the tags "dafny", and finds "Dafny" in the category. */
  lemma TagsAreComparedWithoutLowerCasing(p: Post)
    requires p.title == "" && p.body == "" && p.category == ""
    ensures !Matches(p.(tags := "Dafny"), "Dafny")
    ensures Matches(p.(tags := "dafny"), "Dafny")
    ensures Matches(p.(category := "Dafny"), "Dafny")
  {
    var q := Js.ToLowerCase("Dafny");
    assert q == "dafny";
    assert !Js.Includes("", q);
    assert Js.Includes("dafny", q) by { assert "dafny"[..5] == q; }
    assert !Js.Includes("Dafny", q) by {
      assert "Dafny"[..5] != q by { assert "Dafny"[0] != q[0]; }
      assert !Js.Includes("Dafny"[1..], q);
    }
    assert Js.ToLowerCase("Dafny")[..5] == q;
  }

  /** `fetchPopularBlogs`: the queried documents mapped exactly as the
      unfiltered `fetchBlogs` maps them (ordering and limit are the store's). */
  function FetchPopularBlogs(snapshot: Outcome<seq<BlogDoc>>): (r: Outcome<seq<Post>>)
    ensures r == FetchBlogs(snapshot, None)
  {
    match snapshot
    case Err(m) => Err(m)
    case Ok(docs) => Ok(FromDocs(docs))
  }

  /** `fetchBlogById`: a missing document rejects with "Blog not found"; a
      present one becomes the post the list fetch would build for it, except that
      every comment has its date serialized, with count and order kept. */
  function FetchBlogById(id: string, read: Outcome<Option<BlogData>>): (r: Outcome<Post>)
    ensures read.Err? ==> r == Err(read.msg)
    ensures read == Ok(None) ==> r == Err(BlogNotFound)
    ensures r.Ok? <==> read.Ok? && read.data.Some?
    ensures r.Ok? ==>
      var stored := read.data.value;
      && r.data.id == id
      && r.data.(comments := []) == FromDoc(BlogDoc(id, stored)).(comments := [])
      && |r.data.comments| == |stored.comments|
      && forall i :: 0 <= i < |stored.comments| ==> r.data.comments[i] == SerializeComment(stored.comments[i])
  {
    match read
    case Err(m) => Err(m)
    case Ok(None) => Err(BlogNotFound)
    case Ok(Some(stored)) =>
      var comments := seq(|stored.comments|, i requires 0 <= i < |stored.comments| => SerializeComment(stored.comments[i]));
      Ok(FromDoc(BlogDoc(id, stored)).(comments := comments))
  }

  // ---------------------------------------------------------------------------
  // likeBlog
  // ---------------------------------------------------------------------------

  /** The field update `likeBlog` sends to the store. */
  datatype LikeUpdate = ArrayUnion(userId: string) | ArrayRemove(userId: string)

  /** The payload of a fulfilled `likeBlog`. */
  datatype LikePayload = LikePayload(id: string, likes: seq<string>)

  /** The `filter` callback that drops one user id. */
  function Except(userId: string): string -> bool
  {
    like => like != userId
  }

  /** The new likes list: a user who liked is removed (every occurrence, the
      rest in order); a user who did not is appended. */
  function ToggleLike(likes: seq<string>, userId: string): (r: seq<string>)
    ensures userId in r <==> userId !in likes
    ensures forall x :: x != userId ==> multiset(r)[x] == multiset(likes)[x]
    ensures userId in likes ==> Js.IsSubsequence(r, likes)
    ensures userId !in likes ==> r == likes + [userId]
  {
    if userId in likes then
      var kept := Js.Filter(likes, Except(userId));
      Js.FilterCounts(likes, Except(userId));
      Js.FilterIsSubsequence(likes, Except(userId));
      assert multiset(kept)[userId] == 0;
      kept
    else
      likes + [userId]
  }

  /** Liking twice, starting from not having liked, restores the list. */
  lemma ToggleLikeTwiceRestores(likes: seq<string>, userId: string)
    requires userId !in likes
    ensures ToggleLike(ToggleLike(likes, userId), userId) == likes
  {
    var keep := Except(userId);
    Js.FilterAppend(likes, [userId], keep);
    Js.FilterKeepsAll(likes, keep);
    assert Js.Filter([userId], keep) == [];
  }

  /** The document store's `arrayUnion` / `arrayRemove` applied to a stored
      array. A union appends the id once, only when missing; a remove drops every
      copy of the id and keeps the order of the rest. Both leave the other ids'
      counts. */
  function ApplyLikeUpdate(likes: seq<string>, u: LikeUpdate): (r: seq<string>)
    ensures u.userId in r <==> u.ArrayUnion?
    ensures forall x :: x != u.userId ==> multiset(r)[x] == multiset(likes)[x]
    ensures u.ArrayUnion? ==> |likes| <= |r| && r[..|likes|] == likes
    ensures u.ArrayUnion? && u.userId in likes ==> r == likes
    ensures u.ArrayUnion? && u.userId !in likes ==> r == likes + [u.userId]
    ensures u.ArrayRemove? ==> Js.IsSubsequence(r, likes)
  {
    if u.ArrayRemove? then
      Js.FilterCounts(likes, Except(u.userId));
      Js.FilterIsSubsequence(likes, Except(u.userId));
      assert multiset(Js.Filter(likes, Except(u.userId)))[u.userId] == 0;
      Js.Filter(likes, Except(u.userId))
    else
      assert (likes + [u.userId])[..|likes|] == likes;
      if u.userId in likes then likes else likes + [u.userId]
  }

  /** `likeBlog`: reading `.id` of an absent user throws first; otherwise the
      post's likes are read, the matching update is sent, and on success the
      payload holds the toggled list, the same list the store now holds. */
  function LikeBlog(user: Option<User>, id: string, read: Outcome<seq<string>>, write: Outcome<()>): (r: Step<LikeUpdate, LikePayload>)
    ensures user.None? ==> r == Step(None, Err(Js.CannotRead("null", "id")))
    ensures user.Some? && read.Err? ==> r == Step(None, Err(read.msg))
    ensures r.sent.Some? <==> user.Some? && read.Ok?
    ensures r.sent.Some? ==> ApplyLikeUpdate(read.data, r.sent.value) == ToggleLike(read.data, user.value.id)
    ensures r.result.Ok? <==> user.Some? && read.Ok? && write.Ok?
    ensures r.result.Ok? ==> r.result.data == LikePayload(id, ToggleLike(read.data, user.value.id))
    ensures r.sent.Some? && write.Err? ==> r.result == Err(write.msg)
  {
    match user
    case None => Step(None, Err(Js.CannotRead("null", "id")))
    case Some(u) =>
      match read
      case Err(m) => Step(None, Err(m))
      case Ok(likes) =>
        var update := if u.id in likes then ArrayRemove(u.id) else ArrayUnion(u.id);
        var result := if write.Ok? then Ok(LikePayload(id, ToggleLike(likes, u.id))) else Err(write.msg);
        Step(Some(update), result)
  }

  // ---------------------------------------------------------------------------
  // addCommentToBlog, removeCommentFromBlog, updateBlogViews
  // ---------------------------------------------------------------------------

  /** The payload of a fulfilled `addCommentToBlog`. */
  datatype CommentPayload = CommentPayload(id: string, commentData: Comment)

  /** `addCommentToBlog`: the comment's date is serialized, the stored comments
      are read, and the whole list with the comment appended is written back. */
  function AddCommentToBlog(id: string, commentData: Comment, read: Outcome<seq<Comment>>, write: Outcome<()>): (r: Step<seq<Comment>, CommentPayload>)
    ensures read.Err? ==> r == Step(None, Err(read.msg))
    ensures read.Ok? ==> r.sent == Some(read.data + [SerializeComment(commentData)])
    ensures r.result.Ok? <==> read.Ok? && write.Ok?
    ensures r.result.Ok? ==> r.result.data == CommentPayload(id, SerializeComment(commentData))
    ensures read.Ok? && write.Err? ==> r.result == Err(write.msg)
  {
    var serialized := SerializeComment(commentData);
    match read
    case Err(m) => Step(None, Err(m))
    case Ok(comments) =>
      Step(Some(comments + [serialized]), if write.Ok? then Ok(CommentPayload(id, serialized)) else Err(write.msg))
  }

  /** The list `removeCommentFromBlog` writes back: the entry at `index` deleted
      when `index` is in bounds, the list unchanged otherwise. */
  function RemovedAt(comments: seq<Comment>, index: int): (r: seq<Comment>)
    ensures 0 <= index < |comments| ==> |r| == |comments| - 1 && r[..index] == comments[..index] && r[index..] == comments[index + 1..]
    ensures !(0 <= index < |comments|) ==> r == comments
  {
    if 0 <= index < |comments| then Js.Without(comments, index) else comments
  }

  /** The copy-and-splice of `removeCommentFromBlog`: the stored comments are
      copied into a fresh array and, when `index` is in bounds, the entry there is
      spliced out by shifting the tail one place left. */
  method RemoveCommentAt(comments: seq<Comment>, index: int) returns (updated: seq<Comment>)
    ensures updated == RemovedAt(comments, index)
  {
    var a := new Comment[|comments|](i requires 0 <= i < |comments| => comments[i]);
    var len := a.Length;
    if 0 <= index < len {
      var i := index;
      while i < len - 1
        invariant index <= i <= len - 1
        invariant forall k :: 0 <= k < index ==> a[k] == comments[k]
        invariant forall k :: index <= k < i ==> a[k] == comments[k + 1]
        invariant forall k :: i <= k < len ==> a[k] == comments[k]
      {
        a[i] := a[i + 1];
        i := i + 1;
      }
      len := len - 1;
      assert a[..len] == comments[..index] + comments[index + 1..] by {
        forall k | 0 <= k < len
          ensures a[..len][k] == (comments[..index] + comments[index + 1..])[k]
        {
        }
      }
    } else {
      assert a[..] == comments;
    }
    updated := a[..len];
  }

  /** The payload of a fulfilled `removeCommentFromBlog`. */
  datatype RemovePayload = RemovePayload(id: string, index: int)

  /** `removeCommentFromBlog`: reads the stored comments, writes back the list
      with the entry at `index` removed if it exists, and reports `{id, index}`
      as success whether or not anything was removed. */
  method RemoveCommentFromBlog(id: string, index: int, read: Outcome<seq<Comment>>, write: Outcome<()>)
    returns (r: Step<seq<Comment>, RemovePayload>)
    ensures read.Err? ==> r == Step(None, Err(read.msg))
    ensures read.Ok? ==> r.sent == Some(RemovedAt(read.data, index))
    ensures r.result.Ok? <==> read.Ok? && write.Ok?
    ensures r.result.Ok? ==> r.result.data == RemovePayload(id, index)
    ensures read.Ok? && write.Err? ==> r.result == Err(write.msg)
  {
    if read.Err? {
      return Step(None, Err(read.msg));
    }
    var updated := RemoveCommentAt(read.data, index);
    r := Step(Some(updated), if write.Ok? then Ok(RemovePayload(id, index)) else Err(write.msg));
  }

  /** `updateBlogViews`: sends an increment of exactly one and reports the id. */
  function UpdateBlogViews(id: string, write: Outcome<()>): (r: Step<int, string>)
    ensures r.sent == Some(1)
    ensures r.result.Ok? <==> write.Ok?
    ensures r.result.Ok? ==> r.result.data == id
    ensures write.Err? ==> r.result == Err(write.msg)
  {
    Step(Some(1), if write.Ok? then Ok(id) else Err(write.msg))
  }
}
